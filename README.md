# NitroSense for Linux: a Dafny model of its fan-control core

NitroSense for Linux (`teste.py`) is a single-window utility for Acer laptops.
Besides showing CPU, GPU and RAM telemetry it lets the user drive the fan
through two control files that the `acer-wmi` driver exposes under
`/sys/devices/platform/`. This project models the decision logic behind
that: finding the two control files, the guarded privileged write through
`pkexec tee`, the values the buttons and the slider write, the settings
document that remembers the two paths, the rule that enables the fan
controls, the `lsmod` check for the `acer_wmi` module and the split of the
`nvidia-smi` line.

The operating system is an input everywhere. `os.walk` is a sequence of
`WalkEntry` values (a directory with its file names, or the exception the
walk raises at that step); `os.path.exists` is a predicate `pathExists`;
launching a helper is a function `run` from a `Command` (argument vector
and standard input) to a `ProcessResult` (an exit code with captured
output, executable not found, or another exception); the settings file is
a `ConfigFile` already decoded into a map, or the reason it is not.

Modules, one per component of `teste.py`:

- `PyStr` (pystr.dfy): the Python string operations the code relies on:
  `sub in s`, `str.strip()`, `str.split(sep)`, `str(n)`.
- `PosixPath` (posixpath.dfy): `os.path.join` and `os.path.basename`.
- `Process`, `StatusBar`, `Wrappers`: the helper oracle's types, the
  status-bar message kinds, `Option`.
- `Discovery` (discovery.dfy): the search loop of `_auto_find_paths`, a
  recursive reference definition `Discover` it is proved equal to, and
  lemmas that say what that definition means without the loop.
- `SysfsWriter` (sysfs.dfy): `_write_to_sysfs` and the control values.
- `Settings` (settings.dfy): loading and saving the settings document.
- `Diagnostics` (diagnostics.dfy): the `lsmod` test and the GPU line split.
- `NitroSense` (nitrosense.dfy): the `NitroSenseLinux` class, whose fields
  are the two paths, the two path entries, the control state, the status
  bar and the diagnosis label.

Points where the code behaves differently from what one might expect:

- Discovery does not keep the first path found for each file: a later
  qualifying directory overwrites it, so the path kept is the one from the
  last qualifying directory read before the walk stops
  (`Discovery.LatestIsLastOffer`).
- Loading settings is not total: only a missing file and invalid JSON are
  caught. Another read error, or a JSON value that is not an object, raises
  (`Settings.ReadSettings` returns `None`).
- No timeout bounds the privileged write.
- The button and slider callbacks do not check anything themselves; a
  disabled widget simply never runs them. The model states that effect of
  teste.py:99-105 directly: a press on a disabled control does nothing.
- `os.walk` skips directories it cannot list, so a permission error while
  listing does not abort discovery; only other exceptions do.

## Model

| member | source | states |
|---|---|---|
| `PyStr.IndexOfCorrect` | teste.py:248 | `find` returns the first index where the substring occurs, and nothing exactly when it occurs nowhere |
| `PyStr.ContainsCorrect` | teste.py:248 | the `in` test on strings holds exactly when the substring occurs at some index |
| `PyStr.StripLeading` | teste.py:351 | the result is a suffix, everything cut off is whitespace, and it does not start with whitespace |
| `PyStr.StripTrailing` | teste.py:351 | the result is a prefix, everything cut off is whitespace, and it does not end with whitespace |
| `PyStr.Strip` | teste.py:351 | `strip()` keeps a contiguous middle part with only whitespace removed on each side, and the part neither starts nor ends with whitespace |
| `PyStr.StripIdempotent` | teste.py:296 | stripping twice is stripping once |
| `PyStr.StripTrailingSpace` | teste.py:296 | appending whitespace to a trimmed string is undone by `strip()` |
| `PyStr.Split` | teste.py:296 | `split(sep)` gives at least one piece, joining the pieces with `sep` restores the string, and no piece contains `sep` |
| `PyStr.SplitAtFirst` | teste.py:296 | splitting cuts at the first occurrence of the separator: the first piece ends where the separator occurs, and it occurs nowhere earlier |
| `PyStr.Decimal` | teste.py:179 | `str(n)` is a non-empty string of digits with no leading zero |
| `PyStr.DecimalRoundTrip` | teste.py:179 | `int(str(n)) == n` |
| `PyStr.DecimalWidth` | teste.py:177-179 | below 1000 the decimal string has at most three digits |
| `PosixPath.Join` | teste.py:250 | an absolute name is the whole result; a relative name is appended to the directory, with exactly one `/` inserted unless the directory is empty or already ends in `/` |
| `PosixPath.Basename` | teste.py:343 | the basename is the `/`-free suffix that follows the last `/` |
| `PosixPath.BasenameOfJoin` | teste.py:250-252 | the basename of a joined path is the file name joined on |
| `Discovery.FindControlFiles` | teste.py:242-257 | the loop with its early exit computes exactly the reference outcome `Discover` of the walk |
| `Discovery.DiscoverExplained` | teste.py:246-257 | a located result raised nothing on the entries read, holds for each file the path recorded by those entries, and stops at the first entry after which both are known (or at the end of the walk); an abort comes from the first failure, reached before both were known |
| `Discovery.LatestEmptyIffNoOffer` | teste.py:248-252 | a recorded path is empty exactly when no entry read is an `acer-wmi` directory holding the file |
| `Discovery.LatestIsLastOffer` | teste.py:248-252 | a non-empty recorded path is the join of the file name onto the root of the last qualifying entry: later entries overwrite earlier ones |
| `Discovery.NothingToFind` | teste.py:243-254 | a walk with no qualifying entry is read to the end and yields two empty paths |
| `Discovery.FailureAborts` | teste.py:246-257 | a failure reached before both files are known aborts the search with its reason, and no path survives |
| `Discovery.StopsAfterBothFound` | teste.py:253-254 | a first directory holding both files ends the search after one entry with both joined paths |
| `NitroSense.DiscoveryStatus` | teste.py:255-274 | the status after a search: the error, "found" when the mode file was found, "no fan_mode" when only the speed file was, "nothing known" when neither was |
| `NitroSense.NothingFoundStatus` | teste.py:272-274 | a walk with no qualifying entry ends with the "no known control file" status |
| `NitroSense.NitroSenseLinux.AutoFindPaths` | teste.py:239-274 | an aborted search changes only the status; otherwise each entry takes its found path and keeps its text when none was found |
| `SysfsWriter.SliderValue` | teste.py:177-179 | the slider writes one to three decimal digits, with no leading zero, that read back as the slider position |
| `SysfsWriter.TeeCommand` | teste.py:333-338 | the command is exactly `pkexec tee <path>` and its standard input is exactly the value |
| `SysfsWriter.WriteStatus` | teste.py:340-357 | exit 0 reports the value and the file's basename; a non-zero exit reports the stripped stderr; a missing executable reports the tool as missing; another exception reports its text |
| `SysfsWriter.Write` | teste.py:323-357 | nothing is launched exactly when the path is empty or missing, and then the status is the invalid-path error; otherwise the tee command is launched and its result decides the status |
| `SysfsWriter.RejectionIsStripped` | teste.py:350-351 | a rejection's diagnostic has no leading or trailing whitespace |
| `SysfsWriter.WriteToJoinedPathNamesFile` | teste.py:343 | a successful write to a discovered path names the bare control file |
| `SysfsWriter.NotAuthorizedReported` | teste.py:340-353 | a helper exiting 1 with "Not authorized" and a newline on stderr is reported as rejected with "Not authorized" |
| `NitroSense.NitroSenseLinux.WriteToSysfs` | teste.py:323-357 | the status bar shows the status of the write and the launched command is the write's |
| `NitroSense.NitroSenseLinux.PressAuto` | teste.py:165-166 | when enabled, the Auto button writes "0" to the fan-mode path; disabled, it launches nothing and leaves the status |
| `NitroSense.NitroSenseLinux.PressMax` | teste.py:169-171 | when enabled, the Max button writes "1" to the fan-mode path; disabled, it launches nothing and leaves the status |
| `NitroSense.NitroSenseLinux.MoveSlider` | teste.py:177-179 | when enabled, the slider writes its position in decimal to the fan-speed path; disabled, it launches nothing and leaves the status |
| `Settings.Member` | teste.py:73-74 | `get(key, "")` is the member when present and `""` otherwise |
| `Settings.ReadSettings` | teste.py:68-77 | a missing or undecodable file gives two empty paths; an object gives its two members, each defaulting to `""`; an unreadable file or a non-object raises |
| `Settings.SettingsDocument` | teste.py:84-87 | the saved document has exactly the two keys, holding the two paths |
| `Settings.SaveLoadRoundTrip` | teste.py:70-90 | loading the document that saving writes gives back the two paths |
| `Settings.LoadSaveKeepsPaths` | teste.py:70-90 | saving what was loaded from an object writes its two members under the two keys |
| `NitroSense.NitroSenseLinux.LoadSettings` | teste.py:68-77 | the paths are those the file yields, or loading raises and the paths are untouched |
| `NitroSense.NitroSenseLinux.SaveSettings` | teste.py:79-93 | the paths are taken from the entries; when writable the document of those two paths is written and the controls are re-checked; otherwise nothing else changes |
| `NitroSense.SaveThenReopen` | teste.py:68-93 | opening the window on the file just saved shows the saved paths and enables the controls the same way |
| `NitroSense.FanControlAvailable` | teste.py:97 | the controls are usable exactly when the fan-mode path is non-empty and exists |
| `NitroSense.ControlStatus` | teste.py:107-111 | the status is "enabled" exactly when the controls are |
| `NitroSense.SpeedPathIgnored` | teste.py:97-105 | changing the fan-speed path never changes whether the controls are enabled |
| `NitroSense.NitroSenseLinux.UpdateFanControlUiState` | teste.py:95-111 | the buttons and the slider are enabled exactly when the fan-mode path is set and exists, and the status says which |
| `NitroSense.NitroSenseLinux.constructor` | teste.py:29-66 | the window opens with the loaded paths in the fields and the entries, the controls set by the fan-mode path, and the diagnosis pending |
| `NitroSense.NitroSenseLinux.CheckKernelModule` | teste.py:225-237 | the diagnosis label shows what `lsmod` says |
| `Diagnostics.KernelModuleStatus` | teste.py:228-237 | loaded exactly when `lsmod` exits 0 and its output contains `acer_wmi`; missing when it exits 0 without it; an error otherwise |
| `Diagnostics.GpuLine` | teste.py:296 | two names are bound exactly when the stripped line splits into two pieces, which are separator-free and rejoin to the line |
| `Diagnostics.GpuStats` | teste.py:291-308 | a failing query reads "N/A"; a line of two fields gives them; anything else reads "Erro" |
| `Diagnostics.GpuLineOfTwoFields` | teste.py:296 | two trimmed, separator-free fields joined by ", " and followed by whitespace split back into those fields |
| `Diagnostics.DigitsHoldNoSeparator` | teste.py:296 | a field of digits contains no ", " |
| `Diagnostics.GpuStatsOfNumbers` | teste.py:293-299 | output such as "45, 67" and a newline gives temperature "45" and utilization "67" |

## Left out

- Widget construction, layout, colours and the texts of the status bar and
  the diagnosis label (teste.py:29-66, 113-222): presentation. Only the kind
  of each message and the data it interpolates are kept, and only the last
  status an operation sets (the intermediate "searching", "saved" and
  "checking" texts are overwritten before control returns to the user).
- CPU, temperature and RAM sampling through psutil (teste.py:276-289,
  310-314): a foreign library and floating-point percentages.
- GPU float conversion, formatting and the progress bar (teste.py:297-299):
  floating point. `Diagnostics.GpuStats` stops at the two text fields; a
  field that `float()` rejects, which the source also shows as "Erro", is
  not modelled.
- The timer that re-runs the sampling every 1.5 s (teste.py:316-321): an
  event-loop callback.
- Running `pkexec`, `tee`, `lsmod` and `nvidia-smi`, `os.path.exists`, the
  order in which `os.walk` lists directories, `os.makedirs` and file I/O:
  all are inputs (`run`, `pathExists`, the walk, `writable`, `ConfigFile`).
- The console `print` of the command and of error messages (teste.py:334,
  348, 352, 356, 305): logging only.
- JSON encoding and decoding, and members of the settings object that are
  not strings: the document is a map from strings to strings.
- The `hasattr` checks of teste.py:101-105: the widgets exist whenever the
  method runs, so the buttons and the slider always change together, kept
  as one field.
- The float-to-int truncation of the slider value (teste.py:179): the
  slider position is taken as an integer in 0..255.
- NitroSense.NitroSenseLinux.constructor: requires a settings file that loads; a file that cannot be read for a reason other than absence, or a JSON value that is not an object, raises at teste.py:71-73 and the window never opens, which a Dafny constructor cannot express.
- Diagnostics.KernelModuleStatus: the error diagnosis does not carry the exception text that teste.py:237 shows.
