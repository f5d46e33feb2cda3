/** The hook listing of azext_cdf/_formater.py: each row of the hook table
    becomes a printable line whose lifecycle events are joined by ", ". */
module Formater {
  import opened Values
  import Parser

  /** One printed line: Name, Description and Lifecycle, in that order. */
  datatype HookLine = HookLine(name: string, description: string, lifecycle: string)

  /** Python's `sep.join(parts)`. */
  function Join(sep: string, parts: seq<string>): string
    decreases |parts|
  {
    if parts == [] then ""
    else if |parts| == 1 then parts[0]
    else parts[0] + sep + Join(sep, parts[1..])
  }

  /** The text of each event of a lifecycle list. */
  function Texts(events: seq<Value>): (r: seq<string>)
    requires forall k :: 0 <= k < |events| ==> events[k].Str?
    ensures |r| == |events|
    ensures forall k :: 0 <= k < |events| ==> r[k] == events[k].s
  {
    if events == [] then [] else [events[0].s] + Texts(events[1..])
  }

  /** The lifecycle events of a row are all strings, as join needs. */
  predicate Joinable(row: Parser.HookRow) {
    forall k :: 0 <= k < |row.lifecycle| ==> row.lifecycle[k].Str?
  }

  function FormatRow(row: Parser.HookRow): (r: HookLine)
    requires Joinable(row)
    ensures r.name == row.name && r.description == row.description
    ensures |row.lifecycle| == 1 ==> r.lifecycle == row.lifecycle[0].s
  {
    HookLine(row.name, row.description, Join(", ", Texts(row.lifecycle)))
  }

  /** hooks_output_format: one line per row, in the same order. */
  method HooksOutputFormat(rows: seq<Parser.HookRow>) returns (r: seq<HookLine>)
    requires forall i :: 0 <= i < |rows| ==> Joinable(rows[i])
    ensures |r| == |rows|
    ensures forall i :: 0 <= i < |rows| ==>
      r[i].name == rows[i].name && r[i].description == rows[i].description
    ensures forall i :: 0 <= i < |rows| ==> r[i] == FormatRow(rows[i])
  {
    r := [];
    for i := 0 to |rows|
      invariant |r| == i
      invariant forall j :: 0 <= j < i ==> r[j] == FormatRow(rows[j])
    {
      r := r + [FormatRow(rows[i])];
    }
  }

  /** Splits a text at each ", ", the inverse of joining with ", ". */
  function Split(s: string): (r: seq<string>)
    ensures |r| >= 1
    decreases |s|
  {
    if s == [] then [""]
    else if |s| >= 2 && s[..2] == ", " then [""] + Split(s[2..])
    else
      var t := Split(s[1..]);
      [[s[0]] + t[0]] + t[1..]
  }

  /** A comma-free text in front of another only lengthens the first
      piece. */
  lemma {:induction false} SplitAfterWord(a: string, rest: string)
    requires ',' !in a
    ensures Split(a + rest) == [a + Split(rest)[0]] + Split(rest)[1..]
    decreases |a|
  {
    if a != [] {
      var s := a + rest;
      assert s[0] == a[0] && s[1..] == a[1..] + rest;
      assert a[0] != ',';
      assert !(|s| >= 2 && s[..2] == ", ") by {
        if |s| >= 2 { assert s[..2][0] == s[0]; }
      }
      SplitAfterWord(a[1..], rest);
      var t, u := Split(s[1..]), Split(rest);
      assert t[0] == a[1..] + u[0] && t[1..] == u[1..];
      assert [a[0]] + (a[1..] + u[0]) == a + u[0];
    } else {
      var t := Split(rest);
      assert a + rest == rest && a + t[0] == t[0];
      assert [t[0]] + t[1..] == t;
    }
  }

  /** The events of a lifecycle can be read back from its printed form
      when no event holds a comma. */
  lemma {:induction false} SplitJoin(parts: seq<string>)
    requires parts != []
    requires forall k :: 0 <= k < |parts| ==> ',' !in parts[k]
    ensures Split(Join(", ", parts)) == parts
    decreases |parts|
  {
    if |parts| == 1 {
      SplitAfterWord(parts[0], "");
      assert parts[0] + "" == parts[0];
    } else {
      var tail := Join(", ", parts[1..]);
      assert Join(", ", parts) == parts[0] + (", " + tail);
      SplitAfterWord(parts[0], ", " + tail);
      assert (", " + tail)[..2] == ", " && (", " + tail)[2..] == tail;
      SplitJoin(parts[1..]);
      assert Split(", " + tail) == [""] + parts[1..];
      assert parts[0] + "" == parts[0];
      assert parts == [parts[0]] + parts[1..];
    }
  }

  /** The Lifecycle column of a formatted row lists the row's events. */
  lemma LifecycleReadable(row: Parser.HookRow)
    requires Joinable(row) && row.lifecycle != []
    requires forall k :: 0 <= k < |row.lifecycle| ==> ',' !in row.lifecycle[k].s
    ensures Split(FormatRow(row).lifecycle) == Texts(row.lifecycle)
  {
    SplitJoin(Texts(row.lifecycle));
  }

  /** A hook declared with a single lifecycle string shows that string. */
  lemma SingleEventShownAsIs(name: string, description: string, event: string)
    ensures FormatRow(Parser.HookRow(name, description, Parser.LifecycleList(Str(event)))).lifecycle == event
  {
  }
}
