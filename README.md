# Fuzzinator: subprocess fuzzer and tracker base, modelled in Dafny

This project models two pieces of Fuzzinator, a random-testing framework.

- **`SubprocessRunner`** is a fuzzer that runs an external test generator once per
  fuzz job and then hands out the files it wrote, one file per call.
  - `__init__` fills the `{uid}` placeholder of the output directory and settles
    the working directory and the child's environment.
  - `__enter__` creates the directory, runs the command and queues every entry of
    the directory.
  - `__call__` pops the last queued path and returns that file's bytes. Once the
    queue is empty it returns `None`.
  - `__exit__` removes the directory tree.
- **The tracker base.**
  - `MultitonMetaClass` gives every tracker class its own cache, which maps a tuple
    of constructor arguments to the instance built from it.
  - `BaseTracker` supplies the default capabilities (`logged_in`, `find_issue`,
    `report_issue`, `issue_url`) and the issue functions `decode_issue`, `title`
    and `format_issue`.

## Modules

- `wrappers.dfy`: `Option` and `Result`.
- `lines.dfy`: Python's `str.splitlines()` and `'\n'.join`. An independent
  reference definition, `Normalize`, describes the combination. Also
  `str.split('\n')`.
- `utf8.dfy`: `bytes.decode('utf-8', errors='ignore')`, following the table in
  section 4 of RFC 3629. An encoder is included to state the round trip.
- `template.dfy`: `str.format(**kwargs)` and `string.Formatter().parse` for
  plain named fields. It has an inverse, `Unparse`.
- `issues.dfy`: `decode_issue`, `title`, and the substitution step of
  `format_issue`.
- `trackers.dfy`: the multiton cache, as class `TrackerClass` with a mutable map
  of instances, and the `BaseTracker` defaults, as class `Tracker`.
- `subprocess_runner.dfy`: class `Host` (files, directories and started
  commands) and class `SubprocessRunner`, whose methods update them. Pure
  functions specify the queue, one call (`Pull`) and a series of calls (`Pulls`).

Calls into the environment become parameters:
- `os.getpid()`/`id(self)` → `uid`
- `os.getcwd()` → `currentDir`
- `os.environ` → `environ`
- `json.loads(env)` → `overrides`
- the files the child writes → `written`
- the order `os.listdir` returns → `listing`

## Behaviour worth knowing

The model follows the code.
- `decode_issue` drops only the key `'_id'`. `'id'` stays and is normalised like
  any other field.
- Bytes are decoded with `errors='ignore'`: invalid bytes are dropped, with no
  replacement character in their place.
- `str.splitlines()` does not produce an empty last line, so a final line break
  disappears. `"a\r\nb\rc\n"` becomes `"a\nb\nc"`, not `"a\nb\nc\n"`. As a
  result `decode_issue` is not idempotent (`"a\n\n"` → `"a\n"` → `"a"`).
- The docstring of `SubprocessRunner`
  (fuzzinator/fuzzer/subprocess_runner.py:23-28) says that every `{uid}` in
  `outdir` and `command` is replaced. The code instead passes both through the
  full `str.format` (lines 58 and 68):
  - `{{` and `}}` become single braces.
  - A named field other than `uid` raises `KeyError`.
  - An empty field `{}` or an all-digit one such as `{0}` raises `IndexError`,
    since there are no positional arguments.
  - A lone brace raises `ValueError`.
  - A field with a conversion, a format spec, attribute access or indexing
    (`{uid!s}`, `{uid:>3}`, `{uid[0]}`) is evaluated by Python. The model does
    not evaluate these and reports `UnsupportedField` instead (see "Left out").
- The docstring (lines 32-35) says that `cwd` and `env` apply when they are not
  `None`. The code tests their truth (lines 60-61), so an empty `cwd` also means
  the current directory and an empty `env` also means no environment. `env` is
  JSON text that the code parses, not a dictionary.

## Model

| member | source | states |
|---|---|---|
| Lines.SplitLines | fuzzinator/tracker/base.py:48 | no line holds a line boundary; there are no lines exactly for the empty text |
| Lines.UniversalNewlines | fuzzinator/tracker/base.py:44-49 | `'\n'.join(s.splitlines())` uses only `'\n'` as boundary and equals the reference `Normalize(s)` without its final `'\n'` |
| Lines.Normalize | fuzzinator/tracker/base.py:48 | the reference normalisation leaves `'\n'` as the only boundary and is empty only for empty text |
| Lines.NormalizePrefix | fuzzinator/tracker/base.py:48 | text without boundaries passes through unchanged in front of any suffix |
| Lines.NormalizeAtBreak | fuzzinator/tracker/base.py:48 | at the first boundary the reference normalisation emits the line, one `'\n'` (also for `"\r\n"`), and normalises the rest |
| Lines.UniversalNewlinesDropsFinalBreak | fuzzinator/tracker/base.py:48 | join-of-splitlines equals the reference normalisation with the final `'\n'` dropped, for every text |
| Lines.NormalizeNewlinesOnly | fuzzinator/tracker/base.py:48 | text whose only boundary is `'\n'` is a fixed point of the reference normalisation |
| Lines.UniversalNewlinesFixedPoint | fuzzinator/tracker/base.py:48 | the normalisation leaves a text unchanged if and only if it uses only `'\n'` and does not end in `'\n'` |
| Lines.UniversalNewlinesExample | fuzzinator/tracker/base.py:48 | `"a\r\nb\rc\n"` becomes `"a\nb\nc"` |
| Lines.UniversalNewlinesNotIdempotent | fuzzinator/tracker/base.py:48 | `"a\n\n"` becomes `"a\n"`, and normalising again gives `"a"` |
| Lines.SplitJoinRoundTrip | fuzzinator/tracker/base.py:48 | splitting a `'\n'`-join at `'\n'` gives back the lines when none holds a `'\n'` |
| Lines.LinesOfUniversalNewlines | fuzzinator/tracker/base.py:48 | for non-empty text, the normalised text split at `'\n'` gives exactly `splitlines()` |
| Utf8.SequenceLength | fuzzinator/tracker/base.py:46 | a well-formed UTF-8 sequence is at most four bytes and fits the input; ASCII is one byte |
| Utf8.CodePoint | fuzzinator/tracker/base.py:46 | a well-formed sequence encodes a Unicode scalar value (no surrogate, at most U+10FFFF) |
| Utf8.DecodeIgnore | fuzzinator/tracker/base.py:46 | decoding with `errors='ignore'` never yields more characters than there are bytes. The lemmas below add that encoded text survives (DecodeEncode), that bytes are only ever deleted (DecodeOnlyDrops), that every accepted sequence is canonical (SequenceIsEncoding), that bytes which cannot lead a sequence are skipped (InvalidLeadDropped), and that a sequence cut short is dropped while what follows is decoded afresh (TruncatedSequenceDropped) |
| Utf8.SequenceIsEncoding | fuzzinator/tracker/base.py:46 | every sequence the decoder accepts is the canonical UTF-8 encoding of the character it yields, so overlong forms, encoded surrogates and values above U+10FFFF are never read as characters |
| Utf8.DecodeOnlyDrops | fuzzinator/tracker/base.py:46 | the decoder only deletes bytes: re-encoding its text gives a subsequence of the input |
| Utf8.IllFormedSequencesDropped | fuzzinator/tracker/base.py:46 | the overlong `E0 80 80`, the surrogate `ED A0 80` and the out-of-range `F4 90 80 80` decode to nothing |
| Utf8.ContinuationsDropped | fuzzinator/tracker/base.py:46 | continuation bytes that no lead byte claims are dropped, and what follows them decodes unchanged |
| Utf8.TruncatedSequenceDropped | fuzzinator/tracker/base.py:46 | the first 1 to n-1 bytes of an n-byte encoding, followed by the end of input or by a byte that is not a continuation, are dropped, and what follows decodes as if they were absent |
| Utf8.TruncatedThenAscii | fuzzinator/tracker/base.py:46 | `E2 41 42` decodes to `AB`: the cut-short lead `E2` alone is dropped |
| Utf8.DecodeEncodeChar | fuzzinator/tracker/base.py:46 | the encoding of one character is read back as that character, whatever follows |
| Utf8.DecodeEncode | fuzzinator/tracker/base.py:46 | decoding the UTF-8 encoding of any text gives that text |
| Utf8.InvalidLeadDropped | fuzzinator/tracker/base.py:46 | a byte that cannot start a sequence is dropped, not replaced |
| Utf8.DecodeAscii | fuzzinator/tracker/base.py:46 | ASCII bytes decode one for one |
| Utf8.DecodeIgnoreExample | fuzzinator/tracker/base.py:46 | `caf\xc3\xa9\xff\xe2\x82` decodes to `café`, dropping the stray and the truncated bytes |
| Template.Parse | fuzzinator/tracker/base.py:41 | every field `Formatter().parse` reads has a plain name |
| Template.Lookup | fuzzinator/tracker/base.py:41 | a field is filled if and only if it is named (not positional) and has a keyword argument, and then with that argument |
| Template.ParseField | fuzzinator/tracker/base.py:41 | `"{name}"` followed by text reads as that field followed by what the text reads as |
| Template.ParseChar | fuzzinator/tracker/base.py:41 | a literal character, with braces doubled, reads as itself |
| Template.ParseUnparse | fuzzinator/tracker/base.py:41 | parsing the text of any well-formed pieces gives those pieces back without error |
| Template.UnparseParse | fuzzinator/tracker/base.py:41 | a template that parses without error is exactly the text of its pieces |
| Template.Render | fuzzinator/tracker/base.py:41 | rendering succeeds if and only if every field is named and has a keyword argument; its only errors are `KeyError` and `IndexError` |
| Template.Format | fuzzinator/tracker/base.py:41 | `str.format` with keyword arguments succeeds if and only if the template parses cleanly and every field it names is named and has a keyword argument; a template with a syntax error fails with that error or with the error of a field before it |
| Template.ParseUidOnly | fuzzinator/fuzzer/subprocess_runner.py:58 | a template whose only braces are `{uid}` placeholders parses cleanly and renders with every placeholder replaced |
| Template.FormatUid | fuzzinator/fuzzer/subprocess_runner.py:58 | `outdir.format(uid=uid)` replaces every `{uid}` when those are its only braces |
| Template.FormatLiteralThenUid | fuzzinator/fuzzer/subprocess_runner.py:58 | literal text followed by `{uid}` formats to the text followed by the uid |
| Template.ParseLiteralPrefix | fuzzinator/tracker/base.py:41 | brace-free text reads as literal characters in front of whatever follows |
| Template.RenderLiteralPrefix | fuzzinator/tracker/base.py:41 | literal characters render as themselves in front of the rest |
| Template.FormatMissingField | fuzzinator/fuzzer/subprocess_runner.py:68 | a named field with no keyword argument after literal text raises `KeyError` for that name |
| Template.FormatOtherFieldFails | fuzzinator/fuzzer/subprocess_runner.py:68 | the command `awk '{print $1}' > {uid}.txt` raises `KeyError('print $1')` |
| Template.RenderPrefixFails | fuzzinator/tracker/base.py:41 | when every piece before position k can be filled and piece k cannot, rendering fails with the error of piece k |
| Issues.DecodeValue | fuzzinator/tracker/base.py:44-49 | a decoded value is never bytes; a text uses only `'\n'`; any other value is returned unchanged |
| Issues.DecodeIssue | fuzzinator/tracker/base.py:43-50 | the keys are those of the issue minus `'_id'`, each value is the decoded original, and no bytes remain |
| Issues.FieldArguments | fuzzinator/tracker/base.py:41 | the keyword arguments are exactly the template's field names |
| Issues.Title | fuzzinator/tracker/base.py:39-41 | with no or an empty format: succeeds if and only if `'id'` is present, giving its decoded value; with a format: succeeds if and only if the format parses and names no positional field, and is then the format filled with the decoded issue. Never bytes |
| Issues.RenderFilled | fuzzinator/tracker/base.py:41 | rendering with arguments that agree with the issue gives the reference filling |
| Issues.Substitute | fuzzinator/tracker/base.py:41 | substitution succeeds if and only if the template parses and names no positional field, and then every field holds the issue's value, or `''` where the issue lacks it |
| Issues.MissingFieldIsEmpty | fuzzinator/tracker/base.py:41 | a field the issue lacks is filled exactly as if it held `''` |
| Issues.DecodeThreeKeys | fuzzinator/tracker/base.py:50 | a record with `'_id'` and two other keys decodes to those two keys with decoded values |
| Issues.DecodeIssueExample | fuzzinator/tracker/base.py:43-50 | `'_id'` is removed, `'id'` is kept, and `"a\r\nb\rc\n"` becomes `"a\nb\nc"` |
| Issues.DecodeIssueNotIdempotent | fuzzinator/tracker/base.py:43-50 | decoding twice differs from decoding once |
| Issues.DecodeEncodedBytes | fuzzinator/tracker/base.py:45-48 | bytes that encode a text decode exactly as that text does |
| Issues.DecodedLines | fuzzinator/tracker/base.py:48 | a decoded text split at `'\n'` gives exactly the original's `splitlines()` |
| Issues.SubstituteTwoFields | fuzzinator/tracker/base.py:41 | `"{a}: {b}"` is filled with the two values around `": "` |
| Issues.TitleExample | fuzzinator/tracker/base.py:39-41 | `"{id}: {summary}"` on an issue with only an id `42` gives `"42: "` |
| Issues.FormatIssue | fuzzinator/tracker/base.py:52-57 | with a template: succeeds if and only if the template parses and names no positional field, and is then the template filled with the decoded issue, `''` standing for missing fields |
| Issues.FormatIssueIsTitleSubstitution | fuzzinator/tracker/base.py:52-57 | the template of `format_issue` is filled exactly as the same text used as a title format |
| Trackers.Tracker.constructor | fuzzinator/tracker/base.py:31-33 | the instance keeps its class, template and title format |
| Trackers.Tracker.LoggedIn | fuzzinator/tracker/base.py:35-37 | the base tracker is always logged in |
| Trackers.Tracker.FindIssue | fuzzinator/tracker/base.py:60-61 | the base tracker finds no duplicate for any issue |
| Trackers.Tracker.ReportIssue | fuzzinator/tracker/base.py:63-64 | reporting returns `None` |
| Trackers.Tracker.IssueUrl | fuzzinator/tracker/base.py:66-67 | the base tracker gives every issue the empty URL |
| Trackers.TrackerClass.constructor | fuzzinator/tracker/base.py:16-18 | every class, subclasses included, starts with its own empty cache |
| Trackers.TrackerClass.Call | fuzzinator/tracker/base.py:20-26 | an equal argument tuple returns the cached instance and changes nothing; a new tuple (at most two arguments) builds a fresh instance and caches it; three or more raise and cache nothing. The cache stays consistent |
| Runner.Join | fuzzinator/fuzzer/subprocess_runner.py:75 | `os.path.join`: an absolute name replaces the directory. Otherwise the name follows the directory, with a `/` between them unless the directory is empty or already ends in `/` |
| Runner.WorkingDirectory | fuzzinator/fuzzer/subprocess_runner.py:60 | a missing or empty `cwd` means the current directory |
| Runner.Environment | fuzzinator/fuzzer/subprocess_runner.py:61 | no environment without overrides; otherwise the keys of both, the overrides winning and inherited values kept |
| Runner.RemoveFiles | fuzzinator/fuzzer/subprocess_runner.py:79 | exactly the files strictly below the directory are removed. A regular file at the directory's own path stays, because rmtree fails on it and the error is ignored. The other files keep their contents |
| Runner.RemoveDirs | fuzzinator/fuzzer/subprocess_runner.py:79 | exactly the directory and those below it are removed |
| Runner.Queue | fuzzinator/fuzzer/subprocess_runner.py:75 | one queued path per listed name, in listing order, each joined to the output directory |
| Runner.Pull | fuzzinator/fuzzer/subprocess_runner.py:84-90 | `None` if and only if the queue is empty; else the contents of the last path, or an error when it is not a file |
| Runner.Rest | fuzzinator/fuzzer/subprocess_runner.py:88 | a call pops exactly the last path, also when opening it then fails |
| Runner.SubprocessRunner.constructor | fuzzinator/fuzzer/subprocess_runner.py:54-63 | the output directory is the template formatted with the uid; the command is kept as given; cwd and env follow the rules above; the queue is empty |
| Runner.Create | fuzzinator/fuzzer/subprocess_runner.py:54-63 | construction raises exactly when the output directory template does not format, and otherwise gives a runner as above |
| Runner.SubprocessRunner.Enter | fuzzinator/fuzzer/subprocess_runner.py:65-76 | `''` cannot be created; a command that does not format raises after the directory was made; otherwise one launch with the formatted command, cwd and env, the child's files added, and the queue set to the directory's entries |
| Runner.SubprocessRunner.EnterChecked | fuzzinator/fuzzer/subprocess_runner.py:65-76 | as `Enter`, but an entry that raises leaves the host unchanged |
| Runner.SubprocessRunner.Call | fuzzinator/fuzzer/subprocess_runner.py:84-90 | the result is `Pull` of the old queue and the queue loses its last path |
| Runner.SubprocessRunner.Exit | fuzzinator/fuzzer/subprocess_runner.py:78-80 | the directory tree below `outdir` and `outdir` itself as a directory are removed (nothing for `''`, and a regular file at `outdir` stays), launches untouched, and the exception is never suppressed |
| Runner.PullsReturnEachOnce | fuzzinator/fuzzer/subprocess_runner.py:84-90 | successive calls return every queued file exactly once, last first, then `None` for every later call |
| Runner.ExhaustedStaysExhausted | fuzzinator/fuzzer/subprocess_runner.py:85-86 | once the queue is empty every call returns `None` |
| Runner.QueueIsDirectoryContents | fuzzinator/fuzzer/subprocess_runner.py:75 | every queued path is an existing entry directly inside the output directory, and no path is queued twice |
| Runner.ExitRemovesWorkspace | fuzzinator/fuzzer/subprocess_runner.py:79 | after removal the directory and every entry in it are gone, and every file elsewhere is kept, including a regular file at the directory's own path |
| Runner.FileAtOutdirKept | fuzzinator/fuzzer/subprocess_runner.py:79 | rmtree on a path that holds a regular file removes nothing |
| Runner.ScenarioFormats | fuzzinator/fuzzer/subprocess_runner.py:58-68 | `/tmp/work/{uid}` and `gen -o {uid}` format to `/tmp/work/42-7` and `gen -o 42-7` |
| Runner.DrainTwoFiles | fuzzinator/fuzzer/subprocess_runner.py:65-90 | a full job on two written files: both returned (last listed first), then `None`, and the exit leaves no file or directory |

`Trackers.SameKeySameInstance`, `Trackers.DefaultsAreSeparateKeys`,
`Runner.RunnerScenario` and `Runner.EnterLeaksDirectory` are client methods.
Their asserts walk through concrete uses of the classes: the cache lines 20-26 of
`fuzzinator/tracker/base.py`, a fuzz job, and the finding below.

## Findings

| source | as written | input that shows it | evidently intended | confidence | as-written member | corrected member |
|---|---|---|---|---|---|---|
| fuzzinator/fuzzer/subprocess_runner.py:65-68 | `__enter__` creates the output directory before it formats the command, and `__exit__` does not run when `__enter__` raises | command `awk '{print $1}' > {uid}.txt`: `format` raises `KeyError('print $1')` after `os.makedirs` | an `__enter__` that raises leaves no directory behind | medium, not executed | Runner.SubprocessRunner.Enter, Runner.EnterLeaksDirectory | Runner.SubprocessRunner.EnterChecked |

## Left out

- I/O is replaced by the `Host` object.
  - **The child process.** Its output is the `written` parameter: files created
    directly in the output directory. Its exit status is ignored, as the code
    ignores it.
  - **Discarding output.** The redirection to `os.devnull` is not modelled.
  - **Start-up failures.** A `Popen` that fails to start (a missing `cwd`, no
    shell) is not modelled. As with the finding, it would leave the directory
    behind.
  - **`os.makedirs`.** Only its failure on `''` is modelled. Permission errors,
    a file in the way and missing parent directories are not; parent
    directories are not tracked at all.
  - **Paths.** They are not normalised.
- `Runner.SubprocessRunner.Enter`: assumes the child writes nothing outside the
  output directory and creates no subdirectories. Entries of `os.listdir` are
  given as `listing`, required to name each entry exactly once.
- **uid.** The uniqueness of `'{pid}-{id}'` across runners is not modelled;
  `uid` is a parameter.
- **Environment.** `json.loads` is not modelled: the overrides arrive already
  parsed, as a map from names to strings. Non-string JSON values, which
  `subprocess` would then reject, are not modelled.
- Utf8.DecodeIgnore: it skips one byte wherever no well-formed sequence starts.
  CPython instead skips the maximal ill-formed subpart. The two give the same
  text, because every later byte of such a subpart is a continuation byte, which
  is skipped anyway. That argument is in the function's doc comment. No lemma
  compares the two rules for every input; the model proves the cases above.
- **`str.format` coverage.**
  - Format specs, conversions, attribute access and indexing report
    `UnsupportedField` instead of being evaluated.
  - A field name counts as positional when it is empty or made of ASCII digits.
    Other Unicode decimal digits are not recognised.
- **`title` and `format_issue` dictionaries.** The entry that `Formatter().parse`
  yields for trailing literal text has `None` as its field name, and the
  dictionary in `title` and `format_issue` gets a `None` key. That key cannot be
  used by any field and is not modelled.
- **`format_issue` branches.**
  - Without a template it returns `json.dumps(issue, indent=4, sort_keys=True)`,
    which is not modelled.
  - With a template, the file is read from disk; the model takes its text as the
    parameter `templateText`.
- **Other values.** Values that are neither text nor bytes are carried as the
  text `format()` shows for them (`Other.shown`). Their repr and JSON form are
  not modelled.
- `Trackers.Tracker.ReportIssue`: the keyword arguments are given as one map of
  fields, since it ignores them.
- `Runner.SubprocessRunner.constructor`: the extra `**kwargs` of `__init__`
  (fuzzinator/fuzzer/subprocess_runner.py:54) have no parameter, because the
  code ignores them.
- `Runner.SubprocessRunner.Call`: the `**kwargs` of `__call__` (line 84, for
  example `index`) have no parameter, because the code ignores them.
- **Not modelled at all.**
  - `init_tracker`: configuration lookup of a callable.
  - Subclass constructors with other signatures (only the base `__init__` with
    at most two positional arguments is modelled).
  - Thread safety of the cache.
- `fuzzinator/reduce/__init__.py` is not part of this model.
