# NPostgreSQL utilities: argument strings, in Dafny

NPostgreSQL wraps three PostgreSQL command-line tools in C# objects. Each wrapper turns typed options into the exact argument string that the tool receives:

- `BackupInfo` holds pg_dump options. Its `Arguments()` builds the pg_dump argument string.
- `RestoreInfo` holds pg_restore options. Its `Arguments()` builds the pg_restore argument string.
- `PgCtrl` has one method per pg_ctl subcommand: init, start, stop, restart, reload, status, promote, kill, register and unregister. Each method builds the arguments and hands them to `Execute`.

This project models that serialisation and proves what it produces.

## Modules

- `Wrappers` has `Option`. `None` stands for a C# `null` parameter.
- `Decimal` has the `Int32` range, the decimal rendering of `int.ToString()` (`IntToString`), a reader for it, and their round trip.
- `CommandLine` describes a line as a sequence of arguments. An argument is `Bare(text)` or `Quoted(text)`. `Join` renders each argument after one space. `Argv` is a simplified splitter of the kind that turns `ProcessStartInfo.Arguments` back into words: spaces separate words and double quotes group them. `ArgvJoin` proves that splitting a joined line gives back the argument texts.
- `FileFormats` has the four pg_dump archive formats.
- `Backup`:
  - `DumpOptions` holds the value of every field, and `DumpArgs` and `DumpLine` specify the pg_dump arguments.
  - The class `BackupInfo` has the fields and the setters. `Arguments` and `OnlyExcludeArguments` are methods that build their strings step by step, as the source does. `FormatArguments` is a function that picks one literal segment per format. Each is proved equal to the specification.
  - The `ParseDump` reader recovers the options from the split line.
- `Restore` has the options value, the specification and the class for pg_restore. It has no reader: `RestoreArgv` and `RestoreLineDetermines` state directly what `Argv` makes of the line.
- `Control`:
  - `Command` has one constructor per subcommand, and `CommandArgs` and `ControlLine` specify the arguments of each.
  - The class `PgCtrl` has one method per subcommand. `Execute` is modelled by what it would launch: each call appends an `Invocation` to the field `log`. An `Invocation` holds the working directory, the file name, the argument string and the optional password.
  - The `ParseCommand` reader recovers the subcommand from the split line.

Each specification has a partner:
- The argument string of well-formed options splits into the argument texts, and reading those back gives the options. For pg_dump this is `DumpRoundTrip`; for pg_ctl it is `ControlRoundTrip`.
- So two well-formed option sets render alike exactly when they agree on everything the string carries. These are `SameLineSameView` and `SameViewSameLine`, `ControlLineInjective`, and `RestoreLineDetermines`.
- "Well-formed" means three things:
  - every value the source writes unquoted is a single word;
  - pg_ctl's single-quoted init options and log file hold no space and no double quote;
  - the one double-quoted value, the pg_dump output file, holds no double quote and does not end in a backslash.

The model keeps these behaviours of the source:
- The pg_restore input path is written unquoted. `RestoreInputUnquoted` shows that a path with a space reaches pg_restore as two words.
- `-o` is written with a trailing space.
- The compression level is stored and printed without a range check.
- `Register` puts the service password in the argument string, not in `PGPASSWORD`.
- The connection parameters of `BackupInfo`'s second constructor are ignored.
- The pg_ctl file name is spelled `pg_ctrl.exe`.

The setters of the C# properties become methods named after the property: `SetBlobs`, `SetOutputFormat`, `SetOids` (property `OIDS`) and so on. The source's private `OnlyExcludeAgruments` is named `OnlyExcludeArguments` here.

## Model

| member | source | states |
|---|---|---|
| Decimal.IntToString | src/API/BackupInfo.cs:234 | The decimal rendering of an integer starts with `-` exactly when the number is negative; the rest is a nonempty run of digits, with a leading `0` only for zero itself |
| Decimal.ParseIntRoundTrip | src/API/PgCtrl.cs:199 | Reading the decimal rendering of a number back gives that number |
| Decimal.IntToStringInjective | src/API/PgCtrl.cs:199 | Two numbers render alike exactly when they are equal |
| CommandLine.ArgvJoin | src/API/UtilityBase.cs:43 | Splitting the line of arguments that survive splitting gives back their texts, one word per argument, in order; a trailing space changes nothing |
| Backup.BackupInfo.constructor | src/API/BackupInfo.cs:33-51 | A fresh object has blobs on, OIDs off, compression 5, encoding UTF8, an empty output file, the Custom format and two empty schema lists |
| Backup.BackupInfo.WithConnection | src/API/BackupInfo.cs:33-64 | The connection constructor gives the same defaults; host, port, database, user and password are dropped |
| Backup.BackupInfo.SetBlobs | src/API/BackupInfo.cs:74-78 | Replaces the blobs flag only |
| Backup.BackupInfo.SetOutput | src/API/BackupInfo.cs:88-92 | Replaces the output file only |
| Backup.BackupInfo.SetOutputFormat | src/API/BackupInfo.cs:99-115 | Sets the format; the compression level becomes 0 for Plain and 5 for Custom and is kept for Directory and Tar; no other field changes |
| Backup.BackupInfo.AddOnlySchema | src/API/BackupInfo.cs:123-127 | Adding to the exposed `-n` list appends one entry at its end; nothing else changes |
| Backup.BackupInfo.AddExcludeSchema | src/API/BackupInfo.cs:135-139 | Adding to the exposed `-N` list appends one entry at its end; nothing else changes |
| Backup.BackupInfo.SetOids | src/API/BackupInfo.cs:147-151 | Replaces the OIDs flag only |
| Backup.BackupInfo.SetEncoding | src/API/BackupInfo.cs:159-163 | Replaces the encoding only |
| Backup.BackupInfo.SetCompress | src/API/BackupInfo.cs:173-177 | Stores any `int` as the compression level, unclamped; nothing else changes |
| Backup.BackupInfo.FormatArguments | src/API/BackupInfo.cs:208-237 | The format segment is the rendering of `-F` with the format's letter, followed by `-Z` and the stored level exactly for Plain and Custom |
| Backup.FormatSegments | src/API/BackupInfo.cs:214-234 | The format segment per format: ` -F p -Z n`, ` -F c -Z n`, ` -F d`, ` -F t` |
| Backup.BackupInfo.OnlyExcludeArguments | src/API/BackupInfo.cs:239-247 | The loop appends ` option value` for every list entry in order; the result is the rendering of one `option value` pair per entry, and empty for an empty list |
| Backup.SchemaArgsEntries | src/API/BackupInfo.cs:239-247 | The schema arguments are exactly one option and one value per list entry: twice as many as entries, with entry i at position 2i+1 after its option |
| Backup.BackupInfo.Arguments | src/API/BackupInfo.cs:185-204 | The method's string is the pg_dump argument string of the current options; it changes no field |
| Backup.DumpLineSegments | src/API/BackupInfo.cs:185-204 | The pg_dump string is, in this order: ` -b` exactly when blobs, ` -E` encoding, ` -f` and the quoted output file, the format segment, the `-n` entries, the `-N` entries, and ` -o ` with its trailing space exactly when OIDs |
| Backup.DefaultDumpLine | src/API/BackupInfo.cs:185-237 | A default object renders ` -b -E UTF8 -f "" -F c -Z 5` |
| Backup.CustomDumpLine | src/API/BackupInfo.cs:185-237 | With defaults except output file and level, the string is ` -b -E UTF8 -f "<file>" -F c -Z <level>` for every `int` level, negative or above 9 included |
| Backup.DumpArgv | src/API/BackupInfo.cs:185-204 | The pg_dump string of well-formed options splits into exactly the texts of the pg_dump arguments |
| Backup.DumpRoundTrip | src/API/BackupInfo.cs:185-247 | Reading the split string back gives every option (blobs, encoding, output, format, both lists in order, OIDs), and the level exactly when the format takes `-Z` |
| Backup.SameViewSameLine | src/API/BackupInfo.cs:208-237 | Options that agree except for the level of a Directory or Tar dump render alike |
| Backup.SameLineSameView | src/API/BackupInfo.cs:185-247 | Well-formed options that render alike agree on every option the string carries |
| Restore.RestoreInfo.constructor | src/API/RestoreInfo.cs:33-45 | A fresh object has an empty input, exit-on-error off and no schemas, and names `pg_restore.exe` |
| Restore.RestoreInfo.WithConnection | src/API/RestoreInfo.cs:33-58 | The connection constructor gives the same defaults and executable name |
| Restore.RestoreInfo.SetInput | src/API/RestoreInfo.cs:66-70 | Replaces the input only |
| Restore.RestoreInfo.SetExitOnError | src/API/RestoreInfo.cs:77-81 | Replaces the exit-on-error flag only |
| Restore.RestoreInfo.SetOnlySchemas | src/API/RestoreInfo.cs:88-92 | Replaces the whole schema list and nothing else; the argument string is unchanged |
| Restore.RestoreInfo.Arguments | src/API/RestoreInfo.cs:96-106 | The method's string is the pg_restore argument string of the current options; it changes no field |
| Restore.RestoreLineShape | src/API/RestoreInfo.cs:96-106 | The pg_restore string is a space, the input as given, then ` -e` exactly when exit-on-error is set |
| Restore.DefaultRestoreLine | src/API/RestoreInfo.cs:96-106 | A default object renders as a single space |
| Restore.RestoreLineIgnoresSchemas | src/API/RestoreInfo.cs:88-106 | Options that differ only in the schema list render alike |
| Restore.RestoreArgv | src/API/RestoreInfo.cs:100-103 | A single-word input reaches pg_restore as one word, followed by `-e` exactly when set |
| Restore.RestoreInputUnquoted | src/API/RestoreInfo.cs:100 | An input `a b` with a space reaches pg_restore as the two words `a` and `b` |
| Restore.RestoreLineAmbiguous | src/API/RestoreInfo.cs:100-103 | Because the input is unquoted, the input `a -e` without exit-on-error renders like the input `a` with it |
| Restore.RestoreLineDetermines | src/API/RestoreInfo.cs:96-106 | For inputs without a space, the empty default included, two options render alike exactly when they agree on input and exit-on-error |
| Restore.DefaultRestoreArgv | src/API/RestoreInfo.cs:62-69 | A default object passes pg_restore no word at all, so pg_restore reads the archive from standard input |
| Control.PgCtrl.constructor | src/API/PgCtrl.cs:30-34 | Sets the executable path to the argument and the file name to `pg_ctrl.exe`; nothing has been executed |
| Control.PgCtrl.Execute | src/API/UtilityBase.cs:34-60 | Records exactly one invocation: the working directory, the file name, the argument string and the optional password |
| Control.PgCtrl.Initialize | src/API/PgCtrl.cs:49-58 | Executes the init string once, without a password |
| Control.InitLine | src/API/PgCtrl.cs:49-58 | The init string is ` init -D <dir>`, followed by ` -o '<options>'` exactly when options are given |
| Control.PgCtrl.Start | src/API/PgCtrl.cs:68-77 | Executes the start string once, without a password |
| Control.StartLine | src/API/PgCtrl.cs:68-77 | The start string is ` start -D <dir>`, followed by ` -l '<file>'` exactly when a log file is given |
| Control.PgCtrl.Stop | src/API/PgCtrl.cs:87-107 | Executes the stop string once, without a password; the mode defaults to Smart |
| Control.StopLine | src/API/PgCtrl.cs:87-107 | The stop string is ` stop -D <dir>` and one ` -m` flag with `s`, `f` or `i` for Smart, Fast or Immediate |
| Control.StopFastLine | src/API/PgCtrl.cs:87-107 | A fast stop of the cluster in `dir` is ` stop -D `, `dir`, ` -m f` |
| Control.PgCtrl.Restart | src/API/PgCtrl.cs:117-137 | Executes the restart string once, without a password; the mode defaults to Smart |
| Control.RestartLine | src/API/PgCtrl.cs:117-137 | The restart string is ` restart -D <dir>` and one mode flag |
| Control.PgCtrl.Reload | src/API/PgCtrl.cs:146-154 | Executes the reload string once, without a password |
| Control.ReloadLine | src/API/PgCtrl.cs:146-154 | The reload string is exactly ` reload -D <dir>` |
| Control.PgCtrl.Status | src/API/PgCtrl.cs:162-170 | Executes the status string once, without a password |
| Control.StatusLine | src/API/PgCtrl.cs:162-170 | The status string is exactly ` status -D <dir>` |
| Control.PgCtrl.Promote | src/API/PgCtrl.cs:178-186 | Executes the promote string once, without a password |
| Control.PromoteLine | src/API/PgCtrl.cs:178-186 | The promote string is exactly ` promote -D <dir>` |
| Control.PgCtrl.Kill | src/API/PgCtrl.cs:194-202 | Executes the kill string once, without a password |
| Control.KillLine | src/API/PgCtrl.cs:194-202 | The kill string is ` kill` and the decimal process id |
| Control.PgCtrl.Register | src/API/PgCtrl.cs:214-234 | Executes the register string once, without a password; the start type defaults to Auto |
| Control.RegisterLine | src/API/PgCtrl.cs:214-234 | The register string is ` register -N <svc> -U <user> -P <pass> -D <dir>` and ` -S a` or ` -S d` for Auto or Demand |
| Control.RegisterPasswordInArguments | src/API/PgCtrl.cs:214-234 | For single-word values the service password is one of the eleven words pg_ctl receives, right after `-P` |
| Control.PgCtrl.UnRegister | src/API/PgCtrl.cs:243-251 | Executes the unregister string once, without a password |
| Control.UnRegisterLine | src/API/PgCtrl.cs:243-251 | The unregister string is exactly ` unregister -N <svc>` |
| Control.InitOptionsUnquoted | src/API/PgCtrl.cs:55-56 | The single quotes around init options group nothing: options `a b` reach pg_ctl as the words `'a` and `b'` |
| Control.ControlArgv | src/API/PgCtrl.cs:49-251 | A well-formed subcommand's string splits into exactly the texts of its arguments |
| Control.ControlRoundTrip | src/API/PgCtrl.cs:49-251 | Reading the split string back gives the subcommand with every parameter, including absent optional values, the mode and the start type |
| Control.ControlLineInjective | src/API/PgCtrl.cs:49-251 | Two well-formed subcommands have the same string exactly when they are equal |

## Left out

- `Execute`'s process handling is not modelled: spawning, stdio redirection, waiting, `PGPASSWORD` and the exception on a non-zero exit code are operating-system I/O. `Path.Combine` of path and file name is also left out: an `Invocation` records the two parts.
- The base class `Utilty` of `RestoreInfo`, with its connection parameters, `UtilityFile` and process launch, is not part of this model. Only the executable name its constructors store is kept.
- `InitDbOptions` is not part of this model. Its `Arguments` string is taken as given, as the value of `Init`'s optional parameter.
- `ServerIsReady`, `DataMode` and `PgCtrlInfo` are declarations that no modelled code uses.
- The declarations of `PgCtrlShutdownMode` and `PgCtrlStartType` are not among the modelled files. `ShutdownMode` and `StartType` are built from the cases their `switch` statements cover. Out-of-range values cast to these enums are not modelled; for them the source appends no `-m` or `-S` flag.
- Backup.BackupInfo.SetOutputFormat: `FileFormat` holds only its four declared members here. A C# value outside them, such as `(FileFormat)4`, is not modelled. For such a value the source leaves the compression level as it was, and `FormatArguments` writes ` -F ` with no letter and no `-Z`.
- C# `null` strings are not modelled, except for the parameters that are compared with `null` (`Option`).
- The schema lists are values. The only mutation modelled through the list getters is `Add`; other `List` operations and aliasing of the exposed list are not.
- `Argv` is a simplified splitter, and three things are not modelled:
  - The backslash rules of Windows command-line splitting. Backslashes are taken literally here. Under those rules a backslash right before a double quote escapes it. In a well-formed line the only double quotes are the two around the pg_dump output file, so the place where this matters is the end of that file name, just before its closing quote. An output path ending in `\`, such as `C:\backup\`, therefore escapes the closing quote, and pg_dump would read the rest of the line as part of the file name. This is a quirk of the source; `WellFormed` excludes such paths, so `DumpArgv`, `DumpRoundTrip` and `SameLineSameView` say nothing about them.
  - Tabs as separators. Only the space separates words here, while the Windows runtime also splits at tabs, so a value holding a tab counts as one word in this model.
  - Quoting by single quotes. They group nothing, so the quoted init options and log file of pg_ctl reach it as several words when they hold a space (`InitOptionsUnquoted`). The round trip of `ControlRoundTrip` is stated for values without a space.
- `IntToString` models `int.ToString()` with invariant digits and `-`; culture-specific number formats are not modelled.
- Property getters are reads of the class fields and have no members of their own.
- The auto-property setters of `ExecutablePath` and `ExecutableFilename` are not modelled; only the constructor sets them.
