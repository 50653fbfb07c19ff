/** Argument strings as the wrappers build them: every argument is appended
    as a space followed by its text. `Argv` is the splitting a child process
    applies to such a string to recover its arguments: spaces separate
    arguments unless they stand inside double quotes, and the double quotes
    themselves are dropped. */
module CommandLine {

  /** One argument of a command line: emitted as is, or wrapped in double quotes. */
  datatype Arg = Bare(text: string) | Quoted(text: string)

  /** The characters an argument occupies in the command line. */
  function Raw(a: Arg): string {
    match a
    case Bare(t) => t
    case Quoted(t) => "\"" + t + "\""
  }

  /** The command line of a list of arguments: " " + Raw(a) for each, in order. */
  function Join(args: seq<Arg>): string {
    if args == [] then "" else " " + Raw(args[0]) + Join(args[1..])
  }

  /** The texts of a list of arguments, as the child process receives them. */
  function Values(args: seq<Arg>): (vs: seq<string>)
    ensures |vs| == |args|
    ensures forall i :: 0 <= i < |args| ==> vs[i] == args[i].text
  {
    if args == [] then [] else [args[0].text] + Values(args[1..])
  }

  /** A nonempty text with no space and no double quote. */
  predicate IsBare(s: string) {
    |s| > 0 && forall i :: 0 <= i < |s| ==> s[i] != ' ' && s[i] != '"'
  }

  /** A text with no double quote. */
  predicate QuoteFree(s: string) {
    forall i :: 0 <= i < |s| ==> s[i] != '"'
  }

  /** A text that can sit between double quotes: no double quote inside, and
      no backslash at its end, where it would escape the closing quote. */
  predicate QuotableText(s: string) {
    QuoteFree(s) && (|s| == 0 || s[|s| - 1] != '\\')
  }

  /** An argument that survives splitting unchanged. */
  predicate Splittable(a: Arg) {
    match a
    case Bare(t) => IsBare(t)
    case Quoted(t) => QuotableText(t)
  }

  predicate AllSplittable(args: seq<Arg>) {
    forall i :: 0 <= i < |args| ==> Splittable(args[i])
  }

  lemma AllSplittableAppend(a: seq<Arg>, b: seq<Arg>)
    requires AllSplittable(a) && AllSplittable(b)
    ensures AllSplittable(a + b)
  {
    assert forall i :: |a| <= i < |a + b| ==> (a + b)[i] == b[i - |a|];
  }

  /** The splitting state machine: `cur` is the argument being read, `inArg`
      says whether one has started, `quoted` whether a double quote is open. */
  function Split(s: string, cur: string, inArg: bool, quoted: bool): seq<string>
    decreases |s|
  {
    if s == [] then (if inArg then [cur] else [])
    else if s[0] == '"' then Split(s[1..], cur, true, !quoted)
    else if s[0] == ' ' && !quoted then (if inArg then [cur] else []) + Split(s[1..], "", false, false)
    else Split(s[1..], cur + [s[0]], true, quoted)
  }

  /** The arguments a child process receives for the command line `s`. */
  function Argv(s: string): seq<string> {
    Split(s, "", false, false)
  }

  lemma Assoc(a: string, b: string, c: string)
    ensures a + (b + c) == a + b + c
  {
  }

  lemma JoinCons(a: Arg, rest: seq<Arg>)
    ensures Join([a] + rest) == " " + Raw(a) + Join(rest)
  {
    assert ([a] + rest)[0] == a;
    assert ([a] + rest)[1..] == rest;
  }

  lemma {:induction false} JoinAppend(a: seq<Arg>, b: seq<Arg>)
    ensures Join(a + b) == Join(a) + Join(b)
  {
    if a == [] {
      assert a + b == b;
    } else {
      var h := " " + Raw(a[0]);
      assert a == [a[0]] + a[1..];
      assert a + b == [a[0]] + (a[1..] + b);
      JoinCons(a[0], a[1..] + b);
      JoinCons(a[0], a[1..]);
      JoinAppend(a[1..], b);
      Assoc(h, Join(a[1..]), Join(b));
    }
  }

  lemma JoinOne(a: Arg)
    ensures Join([a]) == " " + Raw(a)
  {
    assert [a][1..] == [];
  }

  lemma JoinTwo(a: Arg, b: Arg)
    ensures Join([a, b]) == " " + Raw(a) + " " + Raw(b)
  {
    assert [a, b] == [a] + [b];
    JoinAppend([a], [b]);
    JoinOne(a);
    JoinOne(b);
  }

  lemma {:induction false} ValuesAppend(a: seq<Arg>, b: seq<Arg>)
    ensures Values(a + b) == Values(a) + Values(b)
  {
  }

  /** Characters that neither end the argument nor toggle quoting are copied. */
  lemma {:induction false} SplitCopies(w: string, r: string, cur: string, inArg: bool, quoted: bool)
    requires forall i :: 0 <= i < |w| ==> w[i] != '"' && (quoted || w[i] != ' ')
    ensures Split(w + r, cur, inArg, quoted) == Split(r, cur + w, inArg || |w| > 0, quoted)
    decreases |w|
  {
    if w == [] {
      assert w + r == r;
      assert cur + w == cur;
    } else {
      assert (w + r)[0] == w[0];
      assert (w + r)[1..] == w[1..] + r;
      SplitCopies(w[1..], r, cur + [w[0]], true, quoted);
      assert cur + [w[0]] + w[1..] == cur + w;
    }
  }

  /** An unquoted space, or the end of the line, completes the current argument. */
  lemma SplitFlushes(r: string, v: string)
    requires r == [] || r[0] == ' '
    ensures Split(r, v, true, false) == [v] + Split(r, "", false, false)
  {
  }

  lemma SplitBare(t: string, r: string)
    requires IsBare(t)
    requires r == [] || r[0] == ' '
    ensures Split(t + r, "", false, false) == [t] + Split(r, "", false, false)
  {
    SplitCopies(t, r, "", false, false);
    assert "" + t == t;
    SplitFlushes(r, t);
  }

  lemma SplitQuoted(t: string, r: string)
    requires QuoteFree(t)
    requires r == [] || r[0] == ' '
    ensures Split("\"" + t + "\"" + r, "", false, false) == [t] + Split(r, "", false, false)
  {
    var q := "\"" + t + "\"" + r;
    assert q[0] == '"';
    assert q[1..] == t + ("\"" + r);
    SplitCopies(t, "\"" + r, "", true, true);
    assert "" + t == t;
    assert ("\"" + r)[0] == '"';
    assert ("\"" + r)[1..] == r;
    SplitFlushes(r, t);
  }

  /** A space outside any argument is skipped. */
  lemma SplitSpace(x: string)
    ensures Split(" " + x, "", false, false) == Split(x, "", false, false)
  {
    assert (" " + x)[0] == ' ';
    assert (" " + x)[1..] == x;
  }

  /** One splittable argument, preceded by its space, is read back as its text. */
  lemma SplitArg(a: Arg, r: string)
    requires Splittable(a)
    requires r == [] || r[0] == ' '
    ensures Split(" " + Raw(a) + r, "", false, false) == [a.text] + Split(r, "", false, false)
  {
    Assoc(" ", Raw(a), r);
    SplitSpace(Raw(a) + r);
    if a.Bare? {
      SplitBare(a.text, r);
    } else {
      SplitQuoted(a.text, r);
    }
  }

  /** Splitting the command line of splittable arguments recovers their texts;
      a trailing space after the last argument changes nothing. */
  lemma {:induction false} ArgvJoin(args: seq<Arg>, tail: string)
    requires forall i :: 0 <= i < |args| ==> Splittable(args[i])
    requires tail == "" || tail == " "
    ensures Argv(Join(args) + tail) == Values(args)
  {
    if args != [] {
      var r := Join(args[1..]) + tail;
      assert Join(args) + tail == " " + Raw(args[0]) + r;
      SplitArg(args[0], r);
      ArgvJoin(args[1..], tail);
      assert Values(args) == [args[0].text] + Values(args[1..]);
    } else {
      assert Join(args) + tail == tail;
      assert tail == " " ==> Split(tail, "", false, false) == [] + Split(tail[1..], "", false, false);
    }
  }
}
