/** The template renderer the resolver calls. The extension hands every
    string to Jinja2 with StrictUndefined; this model keeps the part of that
    language the configuration relies on: literal text with `{{ a.b.c }}`
    placeholders, a dotted lookup in the scope, strict failure on anything
    undefined, and a syntax check of the whole template before any lookup.
    The undefined-variable messages follow Jinja2's wording, because the
    resolver inspects them. */
module Templates {
  import opened Values

  datatype Segment = Text(text: string) | Hole(path: seq<string>)

  /** s[k..k+2] is the two-character marker c c. */
  predicate PairAt(s: string, c: char, k: int) {
    0 <= k && k + 1 < |s| && s[k] == c && s[k + 1] == c
  }

  /** s holds no "{{", so it has no placeholder. */
  predicate Plain(s: string) {
    forall k :: 0 <= k < |s| ==> !PairAt(s, '{', k)
  }

  /** Position of the first marker c c at or after `from`. */
  function FindPair(s: string, c: char, from: nat): (r: Option<nat>)
    ensures r.Some? ==> from <= r.value && PairAt(s, c, r.value)
    ensures r.Some? ==> forall k :: from <= k < r.value ==> !PairAt(s, c, k)
    ensures r.None? ==> forall k :: from <= k ==> !PairAt(s, c, k)
    decreases |s| - from
  {
    if from + 1 >= |s| then None
    else if s[from] == c && s[from + 1] == c then Some(from)
    else FindPair(s, c, from + 1)
  }

  function TrimLeft(s: string): (r: string)
    ensures |r| <= |s|
    ensures r == s[|s| - |r|..]
  {
    if s != [] && s[0] == ' ' then TrimLeft(s[1..]) else s
  }

  function TrimRight(s: string): (r: string)
    ensures |r| <= |s|
    ensures r == s[..|r|]
  {
    if s != [] && s[|s| - 1] == ' ' then TrimRight(s[..|s| - 1]) else s
  }

  /** s split at every '.', like Python's s.split("."). */
  function SplitDots(s: string): (r: seq<string>)
    ensures |r| >= 1
    ensures forall i :: 0 <= i < |r| ==> '.' !in r[i]
    decreases |s|
  {
    if s == [] then [""]
    else if s[0] == '.' then [""] + SplitDots(s[1..])
    else
      var rest := SplitDots(s[1..]);
      [[s[0]] + rest[0]] + rest[1..]
  }

  /** A string without dots is a single part. */
  lemma {:induction false} SplitDotsNone(s: string)
    requires '.' !in s
    ensures SplitDots(s) == [s]
    decreases |s|
  {
    if s != [] {
      assert s[0] in s;
      assert forall c :: c in s[1..] ==> c in s;
      SplitDotsNone(s[1..]);
      assert [s[0]] + s[1..] == s;
    }
  }

  /** Two dot-free parts joined by a dot split back into the two. */
  lemma {:induction false} SplitDotsPair(a: string, b: string)
    requires '.' !in a && '.' !in b
    ensures SplitDots(a + "." + b) == [a, b]
    decreases |a|
  {
    if a == [] {
      assert a + "." + b == ['.'] + b;
      assert (['.'] + b)[1..] == b;
      SplitDotsNone(b);
    } else {
      assert a[0] in a;
      assert forall c :: c in a[1..] ==> c in a;
      assert (a + "." + b)[1..] == a[1..] + "." + b;
      SplitDotsPair(a[1..], b);
      assert [a[0]] + a[1..] == a;
    }
  }

  predicate IdentChar(c: char) {
    ('a' <= c <= 'z') || ('A' <= c <= 'Z') || ('0' <= c <= '9') || c == '_'
  }

  predicate Ident(s: string) {
    s != [] && forall c :: c in s ==> IdentChar(c)
  }

  /** The dotted path between the braces of one placeholder. */
  function ParsePath(expr: string): (r: Result<seq<string>>)
    ensures r.Ok? ==> |r.value| >= 1 && forall i :: 0 <= i < |r.value| ==> Ident(r.value[i])
  {
    var e := TrimRight(TrimLeft(expr));
    if e == [] then Err(TemplateSyntaxError("Expected an expression, got 'end of print statement'"))
    else
      var parts := SplitDots(e);
      if forall i :: 0 <= i < |parts| ==> Ident(parts[i]) then Ok(parts)
      else Err(TemplateSyntaxError("unexpected char in expression '" + e + "'"))
  }

  predicate WellFormed(segs: seq<Segment>) {
    forall i :: 0 <= i < |segs| && segs[i].Hole? ==> |segs[i].path| >= 1
  }

  /** Compiles a template into literal text and placeholders. */
  function Parse(s: string): (r: Result<seq<Segment>>)
    ensures Plain(s) ==> r == Ok([Text(s)])
    ensures r.Ok? ==> WellFormed(r.value)
    ensures r.Err? ==> r.error.TemplateSyntaxError?
    decreases |s|, 1
  {
    match FindPair(s, '{', 0)
    case None => Ok([Text(s)])
    case Some(i) => ParseHole(s, i)
  }

  /** The rest of Parse once the first "{{" is found at i. */
  function ParseHole(s: string, i: nat): (r: Result<seq<Segment>>)
    requires i + 1 < |s|
    ensures r.Ok? ==> WellFormed(r.value)
    ensures r.Err? ==> r.error.TemplateSyntaxError?
    decreases |s|, 0
  {
    match FindPair(s, '}', i + 2)
    case None => Err(TemplateSyntaxError("unexpected end of template, expected 'end of print statement'."))
    case Some(j) =>
      var path :- ParsePath(s[i + 2..j]);
      var rest :- Parse(s[j + 2..]);
      WellFormedAfterHole(s[..i], path, rest);
      Ok([Text(s[..i]), Hole(path)] + rest)
  }

  lemma WellFormedAfterHole(text: string, path: seq<string>, rest: seq<Segment>)
    requires |path| >= 1 && WellFormed(rest)
    ensures WellFormed([Text(text), Hole(path)] + rest)
  {
    var segs := [Text(text), Hole(path)] + rest;
    assert forall i :: 2 <= i < |segs| ==> segs[i] == rest[i - 2];
  }

  /** How Jinja2 names a value that lacks an attribute. */
  function ObjectName(v: Value): string {
    match v
    case Null => "None"
    case Bool(_) => "bool object"
    case Int(_) => "int object"
    case Str(_) => "str object"
    case List(_) => "list object"
    case Dict(_) => "dict object"
  }

  /** Follows the attributes `rest` down from v. */
  function Walk(v: Value, rest: seq<string>): (r: Result<Value>)
    ensures r.Err? ==> r.error.UndefinedError?
    decreases |rest|
  {
    if rest == [] then Ok(v)
    else
      match v
      case Dict(entries) =>
        (match Get(entries, rest[0])
         case None => Err(UndefinedError("'dict object' has no attribute '" + rest[0] + "'"))
         case Some(w) => Walk(w, rest[1..]))
      case _ => Err(UndefinedError("'" + ObjectName(v) + "' has no attribute '" + rest[0] + "'"))
  }
  /** A walk of three attributes through nested dictionaries. */
  lemma WalkThree(v: Value, a: string, b: string, c: string, va: Value, vb: Value, vc: Value)
    requires v.Dict? && Get(v.entries, a) == Some(va)
    requires va.Dict? && Get(va.entries, b) == Some(vb)
    requires vb.Dict? && Get(vb.entries, c) == Some(vc)
    ensures Walk(v, [a, b, c]) == Ok(vc)
  {
    WalkStep(vb, c, [], vc);
    assert [c] + [] == [c];
    WalkStep(va, b, [c], vb);
    assert [b] + [c] == [b, c];
    WalkStep(v, a, [b, c], va);
    assert [a] + [b, c] == [a, b, c];
  }

  /** One attribute step of a walk through a dictionary. */
  lemma WalkStep(v: Value, k: string, rest: seq<string>, w: Value)
    requires v.Dict? && Get(v.entries, k) == Some(w)
    ensures Walk(v, [k] + rest) == Walk(w, rest)
  {
    assert ([k] + rest)[1..] == rest;
  }


  /** The value a dotted path names in the scope. */
  function Lookup(scope: Entries, path: seq<string>): (r: Result<Value>)
    requires |path| >= 1
    ensures r.Err? ==> r.error.UndefinedError?
    ensures !HasKey(scope, path[0]) ==> r == Err(UndefinedError("'" + path[0] + "' is undefined"))
  {
    match Get(scope, path[0])
    case None => Err(UndefinedError("'" + path[0] + "' is undefined"))
    case Some(v) => Walk(v, path[1..])
  }

  /** Renders compiled segments in order; the first undefined lookup fails. */
  function Eval(segs: seq<Segment>, scope: Entries): (r: Result<string>)
    requires WellFormed(segs)
    ensures r.Err? ==> r.error.UndefinedError?
  {
    if segs == [] then Ok("")
    else
      var head :- match segs[0]
        case Text(t) => Ok(t)
        case Hole(path) => (var v :- Lookup(scope, path); Ok(Show(v)));
      var rest :- Eval(segs[1..], scope);
      Ok(head + rest)
  }

  /** jinja_env.from_string(s).render(scope) under StrictUndefined. */
  function Render(s: string, scope: Entries): (r: Result<string>)
    ensures Plain(s) ==> r == Ok(s)
    ensures r.Err? ==> r.error.UndefinedError? || r.error.TemplateSyntaxError?
  {
    var segs :- Parse(s);
    if Plain(s) then
      assert segs == [Text(s)] && segs[1..] == [];
      assert Eval(segs[1..], scope) == Ok("");
      assert s + "" == s;
      Eval(segs, scope)
    else Eval(segs, scope)
  }

  /** FindPair finds the first marker at or after `from`. */
  lemma {:induction false} FindPairAt(s: string, c: char, from: nat, j: nat)
    requires from <= j && PairAt(s, c, j)
    requires forall k :: from <= k < j ==> s[k] != c
    ensures FindPair(s, c, from) == Some(j)
    decreases j - from
  {
    if from < j {
      FindPairAt(s, c, from + 1, j);
    }
  }

  /** A dotted name without spaces or braces. */
  predicate DottedName(p: string) {
    && (forall i :: 0 <= i < |p| ==> p[i] != ' ' && p[i] != '{' && p[i] != '}')
    && (forall i :: 0 <= i < |SplitDots(p)| ==> Ident(SplitDots(p)[i]))
  }

  /** `{{p}}` compiles to one placeholder between two empty texts. */
  lemma ParseSingleHole(p: string)
    requires DottedName(p)
    ensures Parse("{{" + p + "}}") == Ok([Text(""), Hole(SplitDots(p)), Text("")])
    ensures !Plain("{{" + p + "}}")
  {
    var s := "{{" + p + "}}";
    SingleHoleScan(s, p);
    assert Parse("") == Ok([Text("")]);
    assert [Text(s[..0]), Hole(SplitDots(p))] + [Text("")] == [Text(""), Hole(SplitDots(p)), Text("")];
  }

  /** What Parse finds when it scans `{{p}}`: the opening pair at 0, the
      closing pair right after p, a valid path, nothing after. */
  lemma {:induction false} SingleHoleScan(s: string, p: string)
    requires DottedName(p) && s == "{{" + p + "}}"
    ensures PairAt(s, '{', 0) && FindPair(s, '{', 0) == Some(0)
    ensures PairAt(s, '}', |p| + 2) && FindPair(s, '}', 2) == Some(|p| + 2)
    ensures s[2..|p| + 2] == p && ParsePath(p) == Ok(SplitDots(p))
    ensures s[|p| + 4..] == "" && s[..0] == ""
  {
    assert PairAt(s, '{', 0);
    FindPairAt(s, '{', 0, 0);
    var j := |p| + 2;
    assert PairAt(s, '}', j);
    forall k | 2 <= k < j ensures s[k] != '}' {
      assert s[k] == p[k - 2];
    }
    FindPairAt(s, '}', 2, j);
    assert s[2..j] == p;
    assert p != [] by {
      assert Ident(SplitDots(p)[0]);
      assert SplitDots([]) == [""];
    }
    assert TrimLeft(p) == p;
    assert TrimRight(p) == p;
    assert ParsePath(p) == Ok(SplitDots(p));
    assert s[j + 2..] == "";
  }

  /** Evaluating a sequence that starts with literal text prefixes that text. */
  lemma EvalText(segs: seq<Segment>, scope: Entries)
    requires WellFormed(segs) && |segs| >= 1 && segs[0].Text?
    ensures WellFormed(segs[1..])
    ensures Eval(segs, scope) ==
      (match Eval(segs[1..], scope) case Ok(x) => Ok(segs[0].text + x) case Err(e) => Err(e))
  {
    assert forall i :: 0 <= i < |segs[1..]| ==> segs[1..][i] == segs[i + 1];
  }

  /** Evaluating a sequence that starts with a placeholder prefixes its printed value. */
  lemma EvalHole(segs: seq<Segment>, scope: Entries)
    requires WellFormed(segs) && |segs| >= 1 && segs[0].Hole?
    ensures |segs[0].path| >= 1 && WellFormed(segs[1..])
    ensures Eval(segs, scope) ==
      (match Lookup(scope, segs[0].path)
       case Err(e) => Err(e)
       case Ok(v) =>
         (match Eval(segs[1..], scope) case Ok(x) => Ok(Show(v) + x) case Err(e) => Err(e)))
  {
    assert segs[0] == segs[0];
    assert forall i :: 0 <= i < |segs[1..]| ==> segs[1..][i] == segs[i + 1];
  }

  /** A template that is a single placeholder `{{p}}` renders to the
      printed value of the path p, or fails as that lookup fails. */
  lemma {:induction false} RenderSingleHole(p: string, scope: Entries)
    requires DottedName(p)
    ensures Render("{{" + p + "}}", scope) ==
      (match Lookup(scope, SplitDots(p)) case Ok(v) => Ok(Show(v)) case Err(e) => Err(e))
  {
    ParseSingleHole(p);
    EvalSingleHole(SplitDots(p), scope);
  }

  /** The compiled form of `{{p}}` prints the looked-up value alone. */
  lemma {:induction false} EvalSingleHole(path: seq<string>, scope: Entries)
    requires |path| >= 1
    ensures WellFormed([Text(""), Hole(path), Text("")])
    ensures Eval([Text(""), Hole(path), Text("")], scope) ==
      (match Lookup(scope, path) case Ok(v) => Ok(Show(v)) case Err(e) => Err(e))
  {
    var segs := [Text(""), Hole(path), Text("")];
    var mid := segs[1..];
    var tail := mid[1..];
    assert tail == [Text("")];
    EvalText(segs, scope);
    EvalHole(mid, scope);
    EvalText(tail, scope);
    assert tail[1..] == [];
    assert Eval(tail[1..], scope) == Ok("");
    assert tail[0].text == "" && "" + "" == "";
    assert Eval(tail, scope) == Ok("");
    match Lookup(scope, path)
    case Ok(v) =>
      assert Eval(mid, scope) == Ok(Show(v) + "");
      assert "" + (Show(v) + "") == Show(v);
    case Err(e) =>
      assert Eval(mid, scope) == Err(e);
  }
}
