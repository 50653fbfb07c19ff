/** The pg_restore option object: typed options rendered as the argument
    string handed to pg_restore (PostgreSQL 9.3 reference page "pg_restore"). */
module Restore {
  import opened Decimal
  import opened CommandLine

  /** The value of every option field of a `RestoreInfo`. */
  datatype RestoreOptions = RestoreOptions(input: string, exitOnError: bool, onlySchemas: seq<string>)

  /** The field initialisers of `RestoreInfo`. */
  const RestoreDefaults := RestoreOptions("", false, [])

  /** The archive path, unquoted, then `-e` when set. The schema list never appears. */
  function RestoreArgs(o: RestoreOptions): seq<Arg> {
    [Bare(o.input)] + (if o.exitOnError then [Bare("-e")] else [])
  }

  function RestoreLine(o: RestoreOptions): string {
    Join(RestoreArgs(o))
  }

  class RestoreInfo {
    /** The executable name the constructors give the utility base class. */
    var utilityFile: string
    var input: string
    var exitOnError: bool
    var onlySchemas: seq<string>

    function Options(): RestoreOptions
      reads this
    {
      RestoreOptions(input, exitOnError, onlySchemas)
    }

    constructor ()
      ensures Options() == RestoreDefaults
      ensures utilityFile == "pg_restore.exe"
    {
      input, exitOnError, onlySchemas := "", false, [];
      utilityFile := "pg_restore.exe";
    }

    /** The connection parameters go to the utility base class, which is not part of this model. */
    constructor WithConnection(host: string, port: Int32, database: string, username: string, password: string)
      ensures Options() == RestoreDefaults
      ensures utilityFile == "pg_restore.exe"
    {
      input, exitOnError, onlySchemas := "", false, [];
      utilityFile := "pg_restore.exe";
    }

    method SetInput(value: string)
      modifies this
      ensures Options() == old(Options()).(input := value)
      ensures utilityFile == old(utilityFile)
    {
      input := value;
    }

    method SetExitOnError(value: bool)
      modifies this
      ensures Options() == old(Options()).(exitOnError := value)
      ensures utilityFile == old(utilityFile)
    {
      exitOnError := value;
    }

    /** Replaces the whole list; the argument string stays as it was. */
    method SetOnlySchemas(value: seq<string>)
      modifies this
      ensures Options() == old(Options()).(onlySchemas := value)
      ensures utilityFile == old(utilityFile)
      ensures RestoreLine(Options()) == RestoreLine(old(Options()))
    {
      onlySchemas := value;
    }

    /** The pg_restore argument string of the current options; reads the fields only. */
    method Arguments() returns (s: string)
      ensures s == RestoreLine(Options())
    {
      s := "";
      s := s + (" " + input);
      if exitOnError {
        s := s + " -e";
      }
      JoinOne(Bare(input));
      JoinTwo(Bare(input), Bare("-e"));
    }
  }

  /** A default object renders as a single space. */
  lemma DefaultRestoreLine()
    ensures RestoreLine(RestoreDefaults) == " "
  {
    JoinOne(Bare(""));
  }

  /** The argument string spelled out: a space, the archive path as given,
      then " -e" exactly when exit-on-error is set. */
  lemma RestoreLineShape(o: RestoreOptions)
    ensures RestoreLine(o) == " " + o.input + (if o.exitOnError then " -e" else "")
  {
    JoinOne(Bare(o.input));
    JoinTwo(Bare(o.input), Bare("-e"));
    assert " " + "-e" == " -e";
    Assoc(" ", o.input, " -e");
  }

  /** The schema list has no effect on the argument string. */
  lemma RestoreLineIgnoresSchemas(o: RestoreOptions, schemas: seq<string>)
    ensures RestoreLine(o.(onlySchemas := schemas)) == RestoreLine(o)
  {
  }

  /** An archive path that is a single word reaches pg_restore as one argument. */
  lemma RestoreArgv(o: RestoreOptions)
    requires IsBare(o.input)
    ensures Argv(RestoreLine(o)) == [o.input] + (if o.exitOnError then ["-e"] else [])
  {
    var args := RestoreArgs(o);
    assert forall i :: 0 <= i < |args| ==> Splittable(args[i]);
    ArgvJoin(args, "");
    assert Join(args) + "" == Join(args);
    assert Values(args) == [o.input] + (if o.exitOnError then ["-e"] else []);
  }

  /** The archive path is not quoted: a path with a space in it reaches
      pg_restore as two arguments. */
  lemma RestoreInputUnquoted(first: string, second: string, o: RestoreOptions)
    requires IsBare(first) && IsBare(second)
    requires o.input == first + " " + second
    ensures Argv(RestoreLine(o)) == [first, second] + (if o.exitOnError then ["-e"] else [])
  {
    var args := [Bare(first)] + RestoreArgs(o.(input := second));
    JoinAppend([Bare(first)], RestoreArgs(o.(input := second)));
    JoinOne(Bare(first));
    JoinAppend([Bare(second)], if o.exitOnError then [Bare("-e")] else []);
    JoinOne(Bare(second));
    JoinAppend([Bare(o.input)], if o.exitOnError then [Bare("-e")] else []);
    JoinOne(Bare(o.input));
    assert Join(args) == RestoreLine(o);
    assert forall i :: 0 <= i < |args| ==> Splittable(args[i]);
    ArgvJoin(args, "");
    assert Join(args) + "" == Join(args);
    assert Values(args) == [first, second] + (if o.exitOnError then ["-e"] else []);
  }

  /** Without the single-word condition the argument string no longer
      determines the options: the input `a -e` without exit-on-error renders
      like the input `a` with it. */
  lemma RestoreLineAmbiguous(a: string, schemas: seq<string>)
    ensures RestoreLine(RestoreOptions(a + " -e", false, schemas)) == RestoreLine(RestoreOptions(a, true, schemas))
  {
    RestoreLineShape(RestoreOptions(a + " -e", false, schemas));
    RestoreLineShape(RestoreOptions(a, true, schemas));
    Assoc(" ", a, " -e");
  }

  /** A default object passes pg_restore no word at all, so pg_restore
      reads the archive from standard input. */
  lemma DefaultRestoreArgv()
    ensures Argv(RestoreLine(RestoreDefaults)) == []
  {
    DefaultRestoreLine();
    assert " "[1..] == "";
  }

  predicate NoSpace(s: string) {
    forall i :: 0 <= i < |s| ==> s[i] != ' '
  }

  /** A line with `-e` is not the line of an input without a space. */
  lemma FlagNotInInput(input1: string, input2: string)
    requires NoSpace(input2)
    ensures " " + input1 + " -e" != " " + input2
  {
    var line := " " + input1 + " -e";
    assert line[|input1| + 1] == ' ';
  }

  /** For archive paths without a space the argument string determines
      exactly the path and the exit-on-error flag; the empty default path
      is included. */
  lemma RestoreLineDetermines(o1: RestoreOptions, o2: RestoreOptions)
    requires NoSpace(o1.input) && NoSpace(o2.input)
    ensures RestoreLine(o1) == RestoreLine(o2) <==> (o1.input == o2.input && o1.exitOnError == o2.exitOnError)
  {
    RestoreLineShape(o1);
    RestoreLineShape(o2);
    var l := RestoreLine(o1);
    if l == RestoreLine(o2) {
      if o1.exitOnError && !o2.exitOnError {
        FlagNotInInput(o1.input, o2.input);
      } else if !o1.exitOnError && o2.exitOnError {
        FlagNotInInput(o2.input, o1.input);
      } else if o1.exitOnError {
        assert o1.input == l[1..|l| - 3] == o2.input;
      } else {
        assert o1.input == l[1..] == o2.input;
      }
    }
  }
}
