/** The small pure helpers of azext_cdf/utils.py that the core relies on:
    membership tests used for lifecycle and platform filters, list
    coercion, dotted dictionary lookup, the alphabet of random_string and
    the choice of the template file or directory to deploy. */
module Utils {
  import opened Values
  import Templates

  /** is_equal_or_in(v, x): membership when x is a list, equality when x is
      a string, an error for any other type. */
  function IsEqualOrIn(v: string, x: Value): (r: Result<bool>)
    ensures r.Ok? <==> (x.List? || x.Str?)
    ensures r == Ok(true) <==> (x == Str(v) || (x.List? && Str(v) in x.items))
    ensures r.Err? ==> r.error.CliError?
  {
    match x
    case List(items) => Ok(Str(v) in items)
    case Str(s) => Ok(v == s)
    case _ => Err(CliError("unsupported date type '" + Templates.ObjectName(x) + "', " + Show(x)))
  }

  /** is_part_of(item, valid): a subset test when item is a list, membership
      when it is a string, an error for any other type. */
  function IsPartOf(item: Value, valid: seq<string>): (r: Result<bool>)
    ensures r.Ok? <==> (item.List? || item.Str?)
    ensures item.Str? ==> r == Ok(item.s in valid)
    ensures item.List? ==> (r == Ok(true) <==> forall x :: x in item.items ==> x.Str? && x.s in valid)
  {
    match item
    case List(items) => Ok(forall x :: x in items ==> x.Str? && x.s in valid)
    case Str(s) => Ok(s in valid)
    case _ => Err(CliError("unsupported date type '" + Templates.ObjectName(item) + "', " + Show(item)))
  }

  /** convert_to_list_if_need(v). */
  function ConvertToListIfNeed(v: Value): (r: Value)
    ensures r.List?
    ensures v.List? ==> r == v
    ensures !v.List? ==> (r.items == [] <==> v in {Null, Str("")})
    ensures !v.List? && r.items != [] ==> r.items == [v]
  {
    match v
    case List(_) => v
    case Null => List([])
    case Str("") => List([])
    case _ => List([v])
  }

  /** keys.split(".", 1) when keys holds a dot. */
  function SplitFirstDot(s: string): (r: (string, Option<string>))
    ensures r.1.None? <==> '.' !in s
    ensures r.1.None? ==> r.0 == s
    ensures r.1.Some? ==> s == r.0 + "." + r.1.value && '.' !in r.0
  {
    if s == [] then ("", None)
    else if s[0] == '.' then ("", Some(s[1..]))
    else
      var (h, t) := SplitFirstDot(s[1..]);
      ([s[0]] + h, t)
  }

  /** dict_lookup(d, keys): dotted lookup that gives None for a missing key.
      Indexing anything but a dictionary with a string raises TypeError,
      which the function does not catch. */
  function DictLookup(d: Value, keys: string): (r: Result<Value>)
    ensures !d.Dict? ==> r.Err? && r.error.OtherError?
    ensures d.Dict? && '.' !in keys ==> r == Ok(if Get(d.entries, keys).Some? then Get(d.entries, keys).value else Null)
    ensures d.Dict? && Get(d.entries, SplitFirstDot(keys).0).None? ==> r == Ok(Null)
    decreases |keys|
  {
    match d
    case Dict(entries) =>
      var (key, rest) := SplitFirstDot(keys);
      (match Get(entries, key)
       case None => Ok(Null)
       case Some(v) => if rest.Some? then DictLookup(v, rest.value) else Ok(v))
    case _ => Err(OtherError("TypeError: indices must be integers"))
  }

  /** dict_lookup follows the same dotted path as a template placeholder:
      wherever `{{ d.keys }}` finds a value, dict_lookup finds the same one. */
  lemma {:induction false} DictLookupAgreesWithWalk(d: Value, keys: string)
    requires d.Dict?
    requires Templates.Walk(d, Templates.SplitDots(keys)).Ok?
    ensures DictLookup(d, keys) == Ok(Templates.Walk(d, Templates.SplitDots(keys)).value)
    decreases |keys|
  {
    var (key, rest) := SplitFirstDot(keys);
    SplitDotsFirst(keys);
    var v := Get(d.entries, key).value;
    if rest.Some? {
      var path := Templates.SplitDots(rest.value);
      assert Templates.Walk(d, [key] + path) == Templates.Walk(v, path);
      if v.Dict? {
        DictLookupAgreesWithWalk(v, rest.value);
      }
    }
  }

  /** Following `path` through nested dictionaries reaches a dictionary
      that lacks the next key. */
  predicate MissingAlong(v: Value, path: seq<string>)
    decreases |path|
  {
    && path != [] && v.Dict?
    && match Get(v.entries, path[0])
       case None => true
       case Some(w) => MissingAlong(w, path[1..])
  }

  /** dict_lookup catches the KeyError of a missing key, at any depth, and
      gives None. */
  lemma {:induction false} DictLookupMissing(d: Value, keys: string)
    requires MissingAlong(d, Templates.SplitDots(keys))
    ensures DictLookup(d, keys) == Ok(Null)
    decreases |keys|
  {
    var (key, rest) := SplitFirstDot(keys);
    SplitDotsFirst(keys);
    if rest.Some? && Get(d.entries, key).Some? {
      var path := Templates.SplitDots(rest.value);
      assert ([key] + path)[1..] == path;
      DictLookupMissing(Get(d.entries, key).value, rest.value);
    }
  }

  lemma {:induction false} SplitDotsFirst(s: string)
    ensures SplitFirstDot(s).1.None? ==> Templates.SplitDots(s) == [s]
    ensures SplitFirstDot(s).1.Some? ==>
      Templates.SplitDots(s) == [SplitFirstDot(s).0] + Templates.SplitDots(SplitFirstDot(s).1.value)
    decreases |s|
  {
    if s != [] && s[0] != '.' {
      SplitDotsFirst(s[1..]);
    }
  }

  // ---- random_string ----

  const Upper := "ABCDEFGHIJKLMNOPQRSTUVWXYZ"
  const LowerCase := "abcdefghijklmnopqrstuvwxyz"
  const Digits := "0123456789"

  /** The option list random_string falls back on when none is given. */
  function OptionOrDefault(option: Option<seq<string>>): seq<string> {
    if option.Some? then option.value else ["lower", "upper"]
  }

  /** Whether the options ask for `kind`, directly or through "all". */
  predicate Selects(option: Option<seq<string>>, kind: string) {
    kind in OptionOrDefault(option) || "all" in OptionOrDefault(option)
  }

  /** The letters random_string draws from: the union the options select,
      in the fixed order upper, lower, numbers; "special" contributes the
      digits again. */
  function Alphabet(option: Option<seq<string>>): (r: Result<string>)
    ensures r.Err? <==> (forall o :: o in OptionOrDefault(option) ==> o !in {"upper", "lower", "numbers", "special", "all"})
    ensures r.Ok? ==> forall c ::
      c in r.value <==>
        || (c in Upper && Selects(option, "upper"))
        || (c in LowerCase && Selects(option, "lower"))
        || (c in Digits && (Selects(option, "numbers") || Selects(option, "special")))
    ensures r.Ok? && ("upper" in OptionOrDefault(option) || "all" in OptionOrDefault(option)) ==> StartsWith(r.value, Upper)
    ensures option.None? ==> r == Ok(Upper + LowerCase)
  {
    var opts := OptionOrDefault(option);
    var all := "all" in opts;
    var letters :=
      (if "upper" in opts || all then Upper else "")
      + (if "lower" in opts || all then LowerCase else "")
      + (if "numbers" in opts || all then Digits else "")
      + (if "special" in opts || all then Digits else "");
    assert (Upper + LowerCase)[..|Upper|] == Upper;
    assert option.None? ==> letters == Upper + LowerCase by {
      if option.None? {
        assert "numbers" != "lower" && "numbers" != "upper" && "special" != "lower" && "special" != "upper";
        assert "all" != "lower" && "all" != "upper";
        assert letters == Upper + LowerCase + "" + "";
      }
    }
    assert "upper"[0] == 'u' && "lower"[0] == 'l' && "numbers"[0] == 'n' && "special"[0] == 's' && "all"[0] == 'a';
    if letters == "" then Err(CliError("random_string function requires option supported(all, upper, lower and special)"))
    else Ok(letters)
  }

  /** random_string(length, option): `pick` stands for random.choice, giving
      the index drawn for each position. */
  function RandomString(length: int, option: Option<seq<string>>, pick: nat -> nat): (r: Result<string>)
    ensures r.Ok? <==> Alphabet(option).Ok?
    ensures r.Ok? ==> |r.value| == (if length < 0 then 0 else length)
    ensures r.Ok? ==> forall c :: c in r.value ==> c in Alphabet(option).value
  {
    var letters :- Alphabet(option);
    var n := if length < 0 then 0 else length;
    Ok(seq(n, i requires 0 <= i < n => letters[pick(i) % |letters|]))
  }

  // ---- choosing what to deploy ----

  /** find_the_right_dir: the configured up location when it is set and
      non-empty, else the directory of the configuration file. */
  function FindTheRightDir(upDir: Option<string>, configDir: string): (r: string)
    ensures upDir.Some? && upDir.value != "" ==> r == upDir.value
    ensures upDir.None? || upDir.value == "" ==> r == configDir
  {
    if upDir.Some? && upDir.value != "" then upDir.value else configDir
  }

  /** The error when a second file with the extension is found. */
  function MoreThanOneMessage(fileExtension: string): string
  {
    "Found more then one " + fileExtension + " file. Please configure 'up' option."
  }

  /** The error when no file with the extension is found. */
  function NoFileMessage(fileExtension: string): string
  {
    "Can't find " + fileExtension + " file. Please configure 'up' option."
  }

  /** The glob loop of find_the_right_file, from the string kept so far. */
  function PickFrom(fileExtension: string, kept: string, matches: seq<string>): Result<string>
    decreases |matches|
  {
    if matches == [] then
      if kept == "" then Err(CliError(NoFileMessage(fileExtension))) else Ok(kept)
    else if |kept| > 1 then Err(CliError(MoreThanOneMessage(fileExtension)))
    else PickFrom(fileExtension, matches[0], matches[1..])
  }

  /** find_the_right_file: an explicit location is returned unchanged;
      otherwise `matches` (what the glob for `*<fileExtension>` over the
      configuration directory returned) is scanned, keeping the latest
      match and failing on a second one. */
  method FindTheRightFile(upLocation: Option<string>, fileExtension: string, matches: seq<string>) returns (r: Result<string>)
    ensures upLocation.Some? && upLocation.value != "" ==> r == Ok(upLocation.value)
    ensures upLocation.None? || upLocation.value == "" ==> r == PickFrom(fileExtension, "", matches)
    ensures r.Err? ==> r.error == CliError(NoFileMessage(fileExtension)) || r.error == CliError(MoreThanOneMessage(fileExtension))
  {
    if upLocation.Some? && upLocation.value != "" {
      return Ok(upLocation.value);
    }
    var kept := "";
    var i := 0;
    while i < |matches|
      invariant 0 <= i <= |matches|
      invariant PickFrom(fileExtension, kept, matches[i..]) == PickFrom(fileExtension, "", matches)
    {
      if |kept| > 1 {
        return Err(CliError(MoreThanOneMessage(fileExtension)));
      }
      kept := matches[i];
      i := i + 1;
    }
    if kept == "" {
      return Err(CliError(NoFileMessage(fileExtension)));
    }
    return Ok(kept);
  }

  /** With glob results longer than one character, exactly one match is
      needed: none fails with the not-found error, two or more with the
      more-than-one error, and a single match is returned. */
  lemma {:induction false} PickFromLongPaths(fileExtension: string, matches: seq<string>)
    requires forall m :: m in matches ==> |m| > 1
    ensures matches == [] ==> PickFrom(fileExtension, "", matches) == Err(CliError(NoFileMessage(fileExtension)))
    ensures |matches| == 1 ==> PickFrom(fileExtension, "", matches) == Ok(matches[0])
    ensures |matches| >= 2 ==> PickFrom(fileExtension, "", matches) == Err(CliError(MoreThanOneMessage(fileExtension)))
  {
    if |matches| >= 2 {
      assert matches[0] in matches;
      assert PickFrom(fileExtension, "", matches) == PickFrom(fileExtension, matches[0], matches[1..]);
    } else if |matches| == 1 {
      assert matches[0] in matches;
      assert PickFrom(fileExtension, "", matches) == PickFrom(fileExtension, matches[0], []);
    }
  }

}
