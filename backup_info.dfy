/** The pg_dump option object: typed options rendered as the argument string
    handed to pg_dump (PostgreSQL 9.3 reference page "pg_dump"). */
module Backup {
  import opened Wrappers
  import opened Decimal
  import opened CommandLine
  import opened FileFormats

  /** The value of every option field of a `BackupInfo`. */
  datatype DumpOptions = DumpOptions(
    blobs: bool,
    encoding: string,
    output: string,
    format: FileFormat,
    compress: Int32,
    onlySchemas: seq<string>,
    excludeSchemas: seq<string>,
    oids: bool)

  /** The field initialisers of `BackupInfo`. */
  const Defaults := DumpOptions(true, "UTF8", "", Custom, 5, [], [], false)

  /** The letter that `-F` takes for each format. */
  function FormatLetter(f: FileFormat): string {
    match f
    case Plain => "p"
    case Custom => "c"
    case Directory => "d"
    case Tar => "t"
  }

  /** The formats whose flag is followed by a compression flag. */
  predicate NeedsCompress(f: FileFormat) {
    f.Plain? || f.Custom?
  }

  /** The compression level the `OutputFormat` setter leaves behind. */
  function CompressAfterFormat(f: FileFormat, compress: Int32): Int32 {
    match f
    case Plain => 0
    case Custom => 5
    case _ => compress
  }

  /** The format flag, with the compression flag when the format takes one. */
  function FormatArgs(f: FileFormat, compress: Int32): seq<Arg> {
    [Bare("-F"), Bare(FormatLetter(f))]
    + (if NeedsCompress(f) then [Bare("-Z"), Bare(IntToString(compress))] else [])
  }

  /** One `option value` pair per list entry, in list order. */
  function SchemaArgs(option: string, list: seq<string>): seq<Arg> {
    if list == [] then [] else [Bare(option), Bare(list[0])] + SchemaArgs(option, list[1..])
  }

  /** The arguments pg_dump receives, in the order they are emitted. */
  function DumpArgs(o: DumpOptions): seq<Arg> {
    (if o.blobs then [Bare("-b")] else [])
    + [Bare("-E"), Bare(o.encoding)]
    + [Bare("-f"), Quoted(o.output)]
    + FormatArgs(o.format, o.compress)
    + SchemaArgs("-n", o.onlySchemas)
    + SchemaArgs("-N", o.excludeSchemas)
    + (if o.oids then [Bare("-o")] else [])
  }

  /** The pg_dump argument string: the arguments of `DumpArgs`, each after a
      space, and one more space when the OIDs flag ends the line. */
  function DumpLine(o: DumpOptions): string {
    Join(DumpArgs(o)) + (if o.oids then " " else "")
  }

  class BackupInfo {
    var oids: bool
    var blobs: bool
    var compress: Int32
    var encoding: string
    var output: string
    var outputFormat: FileFormat
    var onlySchemas: seq<string>
    var excludeSchemas: seq<string>

    function Options(): DumpOptions
      reads this
    {
      DumpOptions(blobs, encoding, output, outputFormat, compress, onlySchemas, excludeSchemas, oids)
    }

    constructor ()
      ensures Options() == Defaults
    {
      oids, blobs, compress := false, true, 5;
      encoding, output, outputFormat := "UTF8", "", Custom;
      onlySchemas, excludeSchemas := [], [];
    }

    /** The connection parameters are accepted and dropped. */
    constructor WithConnection(host: string, port: Int32, database: string, username: string, password: string)
      ensures Options() == Defaults
    {
      oids, blobs, compress := false, true, 5;
      encoding, output, outputFormat := "UTF8", "", Custom;
      onlySchemas, excludeSchemas := [], [];
    }

    method SetBlobs(value: bool)
      modifies this
      ensures Options() == old(Options()).(blobs := value)
    {
      blobs := value;
    }

    method SetOutput(value: string)
      modifies this
      ensures Options() == old(Options()).(output := value)
    {
      output := value;
    }

    /** Also resets the compression level: 0 for Plain, 5 for Custom. */
    method SetOutputFormat(value: FileFormat)
      modifies this
      ensures Options() == old(Options()).(format := value, compress := CompressAfterFormat(value, old(compress)))
      ensures value.Plain? ==> compress == 0
      ensures value.Custom? ==> compress == 5
      ensures (value.Directory? || value.Tar?) ==> compress == old(compress)
    {
      outputFormat := value;
      match outputFormat {
        case Plain => compress := 0;
        case Custom => compress := 5;
        case Directory =>
        case Tar =>
      }
    }

    /** `OnlySchemas.Add(value)` on the list the getter exposes. */
    method AddOnlySchema(value: string)
      modifies this
      ensures Options() == old(Options()).(onlySchemas := old(onlySchemas) + [value])
    {
      onlySchemas := onlySchemas + [value];
    }

    /** `ExcludeSchemas.Add(value)` on the list the getter exposes. */
    method AddExcludeSchema(value: string)
      modifies this
      ensures Options() == old(Options()).(excludeSchemas := old(excludeSchemas) + [value])
    {
      excludeSchemas := excludeSchemas + [value];
    }

    method SetOids(value: bool)
      modifies this
      ensures Options() == old(Options()).(oids := value)
    {
      oids := value;
    }

    method SetEncoding(value: string)
      modifies this
      ensures Options() == old(Options()).(encoding := value)
    {
      encoding := value;
    }

    /** Stores the level as given: there is no range check. */
    method SetCompress(value: Int32)
      modifies this
      ensures Options() == old(Options()).(compress := value)
    {
      compress := value;
    }

    /** The format segment: `-F` with the format's letter, and `-Z` with the
        stored level for the formats that take it. */
    function FormatArguments(): (r: string)
      reads this
      ensures r == Join(FormatArgs(outputFormat, compress))
    {
      FormatSegments(outputFormat, compress);
      match outputFormat
      case Plain => " -F p" + " -Z " + IntToString(compress)
      case Custom => " -F c" + " -Z " + IntToString(compress)
      case Directory => " -F d"
      case Tar => " -F t"
    }

    /** One " option value" per list entry. */
    static method OnlyExcludeArguments(list: seq<string>, option: string) returns (s: string)
      ensures s == Join(SchemaArgs(option, list))
    {
      s := "";
      var i := 0;
      while i < |list|
        invariant 0 <= i <= |list|
        invariant s == Join(SchemaArgs(option, list[..i]))
      {
        SchemaArgsSnoc(option, list[..i], list[i]);
        assert list[..i + 1] == list[..i] + [list[i]];
        s := s + " " + option + " " + list[i];
        i := i + 1;
      }
      assert list[..i] == list;
    }

    /** The pg_dump argument string of the current options; reads the fields only. */
    method Arguments() returns (s: string)
      ensures s == DumpLine(Options())
    {
      s := "";
      if blobs {
        s := s + " -b";
      }
      assert s == (if blobs then " -b" else "");
      s := s + (" -E " + encoding);
      s := s + (" -f \"" + output + "\"");
      var format := FormatArguments();
      s := s + format;
      var only := OnlyExcludeArguments(onlySchemas, "-n");
      s := s + only;
      var exclude := OnlyExcludeArguments(excludeSchemas, "-N");
      s := s + exclude;
      if oids {
        s := s + " -o ";
      }
      DumpLineSegments(Options());
    }
  }

  /** The format segment as the source writes it, per format. */
  lemma FormatSegments(f: FileFormat, compress: Int32)
    ensures Join(FormatArgs(f, compress)) ==
      if NeedsCompress(f) then " -F " + FormatLetter(f) + " -Z " + IntToString(compress)
      else " -F " + FormatLetter(f)
  {
    var z: seq<Arg> := if NeedsCompress(f) then [Bare("-Z"), Bare(IntToString(compress))] else [];
    JoinAppend([Bare("-F"), Bare(FormatLetter(f))], z);
    JoinTwo(Bare("-F"), Bare(FormatLetter(f)));
    JoinTwo(Bare("-Z"), Bare(IntToString(compress)));
  }

  lemma {:induction false} SchemaArgsAppend(option: string, a: seq<string>, b: seq<string>)
    ensures SchemaArgs(option, a + b) == SchemaArgs(option, a) + SchemaArgs(option, b)
  {
    if a == [] {
      assert a + b == b;
    } else {
      assert (a + b)[0] == a[0];
      assert (a + b)[1..] == a[1..] + b;
      SchemaArgsAppend(option, a[1..], b);
    }
  }

  /** Exactly one `option value` pair per list entry, in list order. */
  lemma {:induction false} SchemaArgsEntries(option: string, list: seq<string>)
    ensures |SchemaArgs(option, list)| == 2 * |list|
    ensures forall i :: 0 <= i < |list| ==>
              SchemaArgs(option, list)[2 * i] == Bare(option) && SchemaArgs(option, list)[2 * i + 1] == Bare(list[i])
  {
    if list != [] {
      var rest := SchemaArgs(option, list[1..]);
      SchemaArgsEntries(option, list[1..]);
      assert SchemaArgs(option, list) == [Bare(option), Bare(list[0])] + rest;
      forall i | 0 <= i < |list|
        ensures SchemaArgs(option, list)[2 * i] == Bare(option) && SchemaArgs(option, list)[2 * i + 1] == Bare(list[i])
      {
        if i > 0 {
          assert list[i] == list[1..][i - 1];
          assert 2 * i == 2 * (i - 1) + 2;
        }
      }
    }
  }

  lemma SchemaArgsSnoc(option: string, list: seq<string>, v: string)
    ensures Join(SchemaArgs(option, list + [v])) == Join(SchemaArgs(option, list)) + " " + option + " " + v
  {
    SchemaArgsAppend(option, list, [v]);
    assert [v][1..] == [];
    assert SchemaArgs(option, [v]) == [Bare(option), Bare(v)];
    JoinAppend(SchemaArgs(option, list), [Bare(option), Bare(v)]);
    JoinTwo(Bare(option), Bare(v));
  }

  lemma JoinSeven(b: seq<Arg>, e: seq<Arg>, q: seq<Arg>, f: seq<Arg>, n: seq<Arg>, x: seq<Arg>, t: seq<Arg>)
    ensures Join(b + e + q + f + n + x + t)
         == Join(b) + Join(e) + Join(q) + Join(f) + Join(n) + Join(x) + Join(t)
  {
    JoinAppend(b + e + q + f + n + x, t);
    JoinAppend(b + e + q + f + n, x);
    JoinAppend(b + e + q + f, n);
    JoinAppend(b + e + q, f);
    JoinAppend(b + e, q);
    JoinAppend(b, e);
  }

  lemma BlobsSegment(blobs: bool)
    ensures Join(if blobs then [Bare("-b")] else []) == if blobs then " -b" else ""
  {
    assert " " + "-b" == " -b";
    JoinOne(Bare("-b"));
  }

  lemma EncodingSegment(encoding: string)
    ensures Join([Bare("-E"), Bare(encoding)]) == " -E " + encoding
  {
    assert " " + "-E" + " " == " -E ";
    JoinTwo(Bare("-E"), Bare(encoding));
  }

  lemma OutputSegment(output: string)
    ensures Join([Bare("-f"), Quoted(output)]) == " -f \"" + output + "\""
  {
    assert " " + "-f" + " " == " -f ";
    assert " -f " + "\"" == " -f \"";
    JoinTwo(Bare("-f"), Quoted(output));
    Assoc(" -f ", "\"" + output, "\"");
    Assoc(" -f ", "\"", output);
  }

  lemma OidsSegment(oids: bool)
    ensures Join(if oids then [Bare("-o")] else []) + (if oids then " " else "") == if oids then " -o " else ""
  {
    assert " " + "-o" + " " == " -o ";
    JoinOne(Bare("-o"));
  }

  /** The argument string is the fixed-order concatenation of its segments:
      blobs, encoding, quoted output file, format, `-n` entries, `-N` entries,
      and " -o " (with its trailing space) last. */
  lemma DumpLineSegments(o: DumpOptions)
    ensures DumpLine(o) ==
      (if o.blobs then " -b" else "")
      + (" -E " + o.encoding)
      + (" -f \"" + o.output + "\"")
      + Join(FormatArgs(o.format, o.compress))
      + Join(SchemaArgs("-n", o.onlySchemas))
      + Join(SchemaArgs("-N", o.excludeSchemas))
      + (if o.oids then " -o " else "")
  {
    var b: seq<Arg> := if o.blobs then [Bare("-b")] else [];
    var e := [Bare("-E"), Bare(o.encoding)];
    var q := [Bare("-f"), Quoted(o.output)];
    var f := FormatArgs(o.format, o.compress);
    var n := SchemaArgs("-n", o.onlySchemas);
    var x := SchemaArgs("-N", o.excludeSchemas);
    var t: seq<Arg> := if o.oids then [Bare("-o")] else [];
    assert DumpArgs(o) == b + e + q + f + n + x + t;
    JoinSeven(b, e, q, f, n, x, t);
    BlobsSegment(o.blobs);
    EncodingSegment(o.encoding);
    OutputSegment(o.output);
    OidsSegment(o.oids);
    Assoc(Join(b) + Join(e) + Join(q) + Join(f) + Join(n) + Join(x), Join(t), if o.oids then " " else "");
  }

  /** The rendering of the default options. */
  lemma DefaultDumpLine()
    ensures DumpLine(Defaults) == " -b -E UTF8 -f \"\" -F c -Z 5"
  {
    assert " -b -E UTF8 -f \"" + "" + "\" -F c -Z " + "5" == " -b -E UTF8 -f \"\" -F c -Z 5";
    assert IntToString(5) == "5";
    assert Defaults.(output := "", compress := 5) == Defaults;
    CustomDumpLine("", 5);
  }

  lemma CustomFormatSegment(compress: Int32)
    ensures Join(FormatArgs(Custom, compress)) == " -F c -Z " + IntToString(compress)
  {
    FormatSegments(Custom, compress);
    assert " -F c" + " -Z " == " -F c -Z ";
  }

  lemma Stitch(a: string, p: string, o: string, q: string, r: string)
    ensures a + ((p + o) + q) + r == (a + p) + o + (q + r)
  {
  }

  /** Custom format with an output file and a compression level, the other
      options at their defaults: the level appears after `-Z` as stored,
      whatever its value. */
  lemma CustomDumpLine(output: string, compress: Int32)
    ensures DumpLine(Defaults.(output := output, compress := compress))
         == " -b -E UTF8 -f \"" + output + "\" -F c -Z " + IntToString(compress)
  {
    var o := Defaults.(output := output, compress := compress);
    DumpLineSegments(o);
    CustomFormatSegment(compress);
    assert Join(SchemaArgs("-n", [])) == "";
    assert " -b" + (" -E " + "UTF8") == " -b -E UTF8";
    assert " -b -E UTF8" + " -f \"" == " -b -E UTF8 -f \"";
    Assoc("\"", " -F c -Z ", IntToString(compress));
    assert "\"" + " -F c -Z " == "\" -F c -Z ";
    Stitch(" -b -E UTF8", " -f \"", output, "\"", " -F c -Z " + IntToString(compress));
    Assoc(" -b -E UTF8 -f \"" + output, "\" -F c -Z ", IntToString(compress));
  }

  // Reading the argument string back

  /** What the argument string carries of the options: all of them, except
      that the compression level is absent for formats that take no `-Z`. */
  datatype DumpView = DumpView(
    blobs: bool,
    encoding: string,
    output: string,
    format: FileFormat,
    compress: Option<int>,
    onlySchemas: seq<string>,
    excludeSchemas: seq<string>,
    oids: bool)

  function View(o: DumpOptions): DumpView {
    DumpView(o.blobs, o.encoding, o.output, o.format,
             if NeedsCompress(o.format) then Some(o.compress as int) else None,
             o.onlySchemas, o.excludeSchemas, o.oids)
  }

  predicate AllBare(list: seq<string>) {
    forall i :: 0 <= i < |list| ==> IsBare(list[i])
  }

  /** Options whose values survive splitting: the encoding and the schema
      patterns are single words, and the output file holds no double quote
      and does not end in a backslash. */
  predicate WellFormed(o: DumpOptions) {
    IsBare(o.encoding) && QuotableText(o.output) && AllBare(o.onlySchemas) && AllBare(o.excludeSchemas)
  }

  function LetterFormat(t: string): (r: Option<FileFormat>)
    ensures r.Some? ==> FormatLetter(r.value) == t
  {
    if t == "p" then Some(Plain)
    else if t == "c" then Some(Custom)
    else if t == "d" then Some(Directory)
    else if t == "t" then Some(Tar)
    else None
  }

  /** Reads `option value` pairs off the front of `t`. */
  function ParseSchemas(option: string, t: seq<string>): (seq<string>, seq<string>)
    decreases |t|
  {
    if |t| >= 2 && t[0] == option then
      var (vs, rest) := ParseSchemas(option, t[2..]);
      ([t[1]] + vs, rest)
    else ([], t)
  }

  /** Reads `-F letter`, and `-Z level` after it when the format takes one. */
  function ParseFormat(t: seq<string>): Option<(FileFormat, Option<int>, seq<string>)> {
    if |t| < 2 || t[0] != "-F" || LetterFormat(t[1]).None? then None
    else
      var f := LetterFormat(t[1]).value;
      if !NeedsCompress(f) then Some((f, None, t[2..]))
      else if |t| >= 4 && t[2] == "-Z" && ParseInt(t[3]).Some? then Some((f, ParseInt(t[3]), t[4..]))
      else None
  }

  /** Reads the `-n` pairs, the `-N` pairs and the optional final `-o`. */
  function ParseTail(t: seq<string>): Option<(seq<string>, seq<string>, bool)> {
    var (only, w) := ParseSchemas("-n", t);
    var (exclude, x) := ParseSchemas("-N", w);
    if x == [] then Some((only, exclude, false))
    else if x == ["-o"] then Some((only, exclude, true))
    else None
  }

  /** Reads pg_dump arguments in the order they are emitted. */
  function ParseDump(t: seq<string>): Option<DumpView> {
    var blobs := |t| > 0 && t[0] == "-b";
    var u := if blobs then t[1..] else t;
    if |u| < 4 || u[0] != "-E" || u[2] != "-f" then None
    else
      match ParseFormat(u[4..])
      case None => None
      case Some((f, compress, v)) =>
        match ParseTail(v)
        case None => None
        case Some((only, exclude, oids)) => Some(DumpView(blobs, u[1], u[3], f, compress, only, exclude, oids))
  }

  lemma {:induction false} SchemaArgsSplittable(option: string, list: seq<string>)
    requires IsBare(option) && AllBare(list)
    ensures forall i :: 0 <= i < |SchemaArgs(option, list)| ==> Splittable(SchemaArgs(option, list)[i])
  {
    if list != [] {
      SchemaArgsSplittable(option, list[1..]);
    }
  }

  lemma ValuesSchemaCons(option: string, list: seq<string>)
    requires list != []
    ensures Values(SchemaArgs(option, list)) == [option, list[0]] + Values(SchemaArgs(option, list[1..]))
  {
    ValuesAppend([Bare(option), Bare(list[0])], SchemaArgs(option, list[1..]));
  }

  lemma ParseSchemasCons(option: string, v: string, t: seq<string>)
    ensures ParseSchemas(option, [option, v] + t) == ([v] + ParseSchemas(option, t).0, ParseSchemas(option, t).1)
  {
    assert ([option, v] + t)[2..] == t;
  }

  lemma {:induction false} ParseSchemasValues(option: string, list: seq<string>, rest: seq<string>)
    requires rest == [] || rest[0] != option
    ensures ParseSchemas(option, Values(SchemaArgs(option, list)) + rest) == (list, rest)
  {
    if list == [] {
      assert Values(SchemaArgs(option, list)) + rest == rest;
    } else {
      var t := Values(SchemaArgs(option, list[1..])) + rest;
      ValuesSchemaCons(option, list);
      assert Values(SchemaArgs(option, list)) + rest == [option, list[0]] + t;
      ParseSchemasCons(option, list[0], t);
      ParseSchemasValues(option, list[1..], rest);
      assert [list[0]] + list[1..] == list;
    }
  }

  lemma DumpArgsSplittable(o: DumpOptions)
    requires WellFormed(o)
    ensures AllSplittable(DumpArgs(o))
  {
    var b: seq<Arg> := if o.blobs then [Bare("-b")] else [];
    var e := [Bare("-E"), Bare(o.encoding)];
    var q := [Bare("-f"), Quoted(o.output)];
    var f := FormatArgs(o.format, o.compress);
    var n := SchemaArgs("-n", o.onlySchemas);
    var x := SchemaArgs("-N", o.excludeSchemas);
    var t: seq<Arg> := if o.oids then [Bare("-o")] else [];
    SchemaArgsSplittable("-n", o.onlySchemas);
    SchemaArgsSplittable("-N", o.excludeSchemas);
    assert IsBare(IntToString(o.compress));
    assert IsBare(FormatLetter(o.format));
    assert AllSplittable(f);
    AllSplittableAppend(b, e);
    AllSplittableAppend(b + e, q);
    AllSplittableAppend(b + e + q, f);
    AllSplittableAppend(b + e + q + f, n);
    AllSplittableAppend(b + e + q + f + n, x);
    AllSplittableAppend(b + e + q + f + n + x, t);
    assert DumpArgs(o) == b + e + q + f + n + x + t;
  }

  /** The texts pg_dump receives for well-formed options. */
  lemma DumpArgv(o: DumpOptions)
    requires WellFormed(o)
    ensures Argv(DumpLine(o)) == Values(DumpArgs(o))
  {
    DumpArgsSplittable(o);
    ArgvJoin(DumpArgs(o), if o.oids then " " else "");
  }

  lemma ParseFormatValues(f: FileFormat, compress: Int32, rest: seq<string>)
    ensures ParseFormat(Values(FormatArgs(f, compress)) + rest)
         == Some((f, if NeedsCompress(f) then Some(compress as int) else None, rest))
  {
    var t := Values(FormatArgs(f, compress)) + rest;
    assert LetterFormat(FormatLetter(f)) == Some(f);
    if NeedsCompress(f) {
      var z := [Bare("-Z"), Bare(IntToString(compress))];
      ValuesAppend([Bare("-F"), Bare(FormatLetter(f))], z);
      assert t == ["-F", FormatLetter(f), "-Z", IntToString(compress)] + rest;
      assert t[4..] == rest;
      ParseIntRoundTrip(compress);
    } else {
      assert FormatArgs(f, compress) == [Bare("-F"), Bare(FormatLetter(f))];
      assert t == ["-F", FormatLetter(f)] + rest;
      assert t[2..] == rest;
    }
  }

  lemma ParseTailValues(o: DumpOptions)
    ensures ParseTail(Values(SchemaArgs("-n", o.onlySchemas) + SchemaArgs("-N", o.excludeSchemas)
                             + (if o.oids then [Bare("-o")] else [])))
         == Some((o.onlySchemas, o.excludeSchemas, o.oids))
  {
    var n := SchemaArgs("-n", o.onlySchemas);
    var x := SchemaArgs("-N", o.excludeSchemas);
    var t: seq<Arg> := if o.oids then [Bare("-o")] else [];
    assert n + x + t == n + (x + t);
    ValuesAppend(n, x + t);
    ValuesAppend(x, t);
    var vt := Values(t);
    assert vt == (if o.oids then ["-o"] else []);
    ParseSchemasValues("-n", o.onlySchemas, Values(x + t));
    ParseSchemasValues("-N", o.excludeSchemas, vt);
  }

  lemma Regroup<T>(a: seq<T>, b: seq<T>, c: seq<T>, d: seq<T>, e: seq<T>, f: seq<T>, g: seq<T>)
    ensures a + b + c + d + e + f + g == a + (b + (c + (d + (e + f + g))))
  {
  }

  /** The texts of `DumpArgs`, grouped as the parser consumes them. */
  lemma DumpValues(o: DumpOptions)
    ensures Values(DumpArgs(o)) ==
      (if o.blobs then ["-b"] else [])
      + (["-E", o.encoding, "-f", o.output]
         + (Values(FormatArgs(o.format, o.compress))
            + Values(SchemaArgs("-n", o.onlySchemas) + SchemaArgs("-N", o.excludeSchemas)
                     + (if o.oids then [Bare("-o")] else []))))
  {
    var b: seq<Arg> := if o.blobs then [Bare("-b")] else [];
    var e := [Bare("-E"), Bare(o.encoding)];
    var q := [Bare("-f"), Quoted(o.output)];
    var f := FormatArgs(o.format, o.compress);
    var n := SchemaArgs("-n", o.onlySchemas);
    var x := SchemaArgs("-N", o.excludeSchemas);
    var t: seq<Arg> := if o.oids then [Bare("-o")] else [];
    var tail := n + x + t;
    Regroup(b, e, q, f, n, x, t);
    assert DumpArgs(o) == b + (e + q + (f + tail));
    ValuesAppend(b, e + q + (f + tail));
    ValuesAppend(e + q, f + tail);
    ValuesAppend(f, tail);
    assert Values(e + q) == ["-E", o.encoding, "-f", o.output];
    assert Values(b) == (if o.blobs then ["-b"] else []);
  }

  lemma ParseDumpParts(blobs: bool, encoding: string, output: string, rest: seq<string>,
                       f: FileFormat, compress: Option<int>, v: seq<string>,
                       only: seq<string>, exclude: seq<string>, oids: bool)
    requires ParseFormat(rest) == Some((f, compress, v))
    requires ParseTail(v) == Some((only, exclude, oids))
    ensures ParseDump((if blobs then ["-b"] else []) + (["-E", encoding, "-f", output] + rest))
         == Some(DumpView(blobs, encoding, output, f, compress, only, exclude, oids))
  {
    var u := ["-E", encoding, "-f", output] + rest;
    assert u[4..] == rest;
    var argv := (if blobs then ["-b"] else []) + u;
    assert blobs ==> argv[0] == "-b" && argv[1..] == u;
    assert !blobs ==> argv == u && argv[0] != "-b";
  }

  /** The argument string of well-formed options reads back as their view:
      each flag in its place, one `-n` and one `-N` per list entry in list
      order, and the stored compression level exactly when the format takes one. */
  lemma DumpRoundTrip(o: DumpOptions)
    requires WellFormed(o)
    ensures ParseDump(Argv(DumpLine(o))) == Some(View(o))
  {
    DumpArgv(o);
    DumpValues(o);
    var tail := Values(SchemaArgs("-n", o.onlySchemas) + SchemaArgs("-N", o.excludeSchemas)
                       + (if o.oids then [Bare("-o")] else []));
    ParseFormatValues(o.format, o.compress, tail);
    ParseTailValues(o);
    ParseDumpParts(o.blobs, o.encoding, o.output, Values(FormatArgs(o.format, o.compress)) + tail,
                   o.format, if NeedsCompress(o.format) then Some(o.compress as int) else None, tail,
                   o.onlySchemas, o.excludeSchemas, o.oids);
  }

  /** Options with the same view render alike; in particular, for Directory
      and Tar the compression level has no effect on the argument string. */
  lemma SameViewSameLine(o1: DumpOptions, o2: DumpOptions)
    requires View(o1) == View(o2)
    ensures DumpLine(o1) == DumpLine(o2)
  {
    assert FormatArgs(o1.format, o1.compress) == FormatArgs(o2.format, o2.compress);
  }

  /** Well-formed options that render alike have the same view: no two
      differing option values are confused by the argument string. */
  lemma SameLineSameView(o1: DumpOptions, o2: DumpOptions)
    requires WellFormed(o1) && WellFormed(o2)
    requires DumpLine(o1) == DumpLine(o2)
    ensures View(o1) == View(o2)
  {
    DumpRoundTrip(o1);
    DumpRoundTrip(o2);
  }
}
