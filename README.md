# ArcWelder plugin for Cura: the G-code filter, in Dafny

The ArcWelder plugin hooks into the slicer's "output write started" event. For
each build plate in the scene's `gcode_dict`, it flattens the plate's layers into
one text, runs the external ArcWelder binary on that text, and splits the result
back into layers. A plate has a header layer (the first element). The plugin
takes the header out before the tool runs and puts it back afterwards. It then
appends the marker `;ARCWELDERPROCESSED\n` to the plate's first element, so that
a later write leaves the plate alone. This project models that hook, the command
line it builds for the tool, and the one-time merge of the plugin's setting keys
into the `general/visible_settings` preference.

Files (one module each):

- `wrappers.dfy`: `Option`.
- `text.dfy` (`Text`): leftmost-occurrence search and `Contains`, with the
  meaning of Python's `sub in s`.
- `layer_codec.dfy` (`LayerCodec`): the separator and marker constants.
  `Join` is Python's `str.join`. `Split` is Python's `str.split` with a non-empty
  separator. It also holds the two round-trip lemmas.
- `arguments.dfy` (`ArcWelderArguments`): the settings, the `command_arguments`
  list, and a reader for that command line, used as an independent reference.
- `gcode_filter.dfy` (`GcodeFilter`): one plate (`FilterPlate`) and the loop over
  the plates (`FilterPlates`) as specification functions, with lemmas about
  them. It also holds the mutable dictionary `GcodeDict` and the methods
  `WeldPlate` and `FilterGcode`, which implement `_filterGcode` imperatively and
  are proved equal to those functions.
- `visible_settings.dfy` (`VisibleSettings`): the string accumulator loop and
  the `Preferences` object it updates.

How the model represents the code:

- `gcode_dict` is a `GcodeDict` object. The object holds a map from plate id to
  list of layers, plus the order in which the dictionary iterates its keys. The
  filter changes this object in place.
- `gcode_list.pop(0)` changes the list object that the dictionary itself holds.
  So the model stores the header-less list back into the dictionary before the
  tool runs (`WeldPlate`).
- The ArcWelder binary and its temporary file are one function value
  `Tool = (seq<string>, string) -> Option<string>`. It takes the command line and
  the text written to the file. It returns the text read back, or `None` when
  any step from writing the temporary file to reading it back raises
  (ArcWelderPlugin.py lines 193-226: `mkstemp`, the write, `check_output`, the
  decoding of its output, the read and `os.remove`). Each of these leaves the
  same state: the plate has lost its header and the hook stops.
- The path that `mkstemp` returns for a plate is a function from plate id to
  string.

What the source does:

- The header is always popped, because the length check has already ensured at
  least two layers. The `else: header = ""` branch (ArcWelderPlugin.py lines 189-190) cannot run,
  so it is not modelled.
- An empty header is not put back. The marker then lands on the first piece of
  the split output.
- When the tool fails, the exception ends the whole hook (`ToolError`).
- On a tool failure the failing plate keeps its header-less list, because the
  pop changed the list the dictionary holds. A later run treats the plate's
  first real layer as its header when at least two layers remain. A plate left
  with one layer is skipped from then on and never gets its header back
  (`FailedPlateNextRun`).
- On a tool failure the plates before the failing plate stay replaced, and the
  plates after it are not visited (`RunOutcome`, `VisitedPlates`,
  `UnvisitedPlates`).
- The round trip of `Split` over `Join` needs more than "no layer contains the
  separator". No occurrence of the separator must be able to start inside a
  layer and run on into the separator after it.
- That extra condition holds for this separator, because its first character
  `;` does not recur in it (`FirstCharUnique`, `LayerSeparatorFirstCharUnique`).
- Line 236 assigns `gcode_dict` back to the scene only when something changed.
  That dictionary is the same object the scene already holds (the `getattr`
  at line 166 returned it). So the assignment changes nothing the model can
  see, and `dict_changed` is reported as the `Finished` outcome.

## Model

| member | source | states |
|---|---|---|
| `Text.IndexOf` | ArcWelderPlugin.py:228 | the result is the leftmost occurrence of the separator, and None means there is no occurrence at all; this is the scan that `str.split` makes |
| `Text.ContainsIff` | ArcWelderPlugin.py:182 | `sub in s` is true exactly when `sub` occurs at some index of `s` |
| `Text.ContainsSuffix` | ArcWelderPlugin.py:231 | a string that ends with the marker contains the marker |
| `LayerCodec.Split` | ArcWelderPlugin.py:228 | `str.split` always gives at least one piece, and no piece contains the separator |
| `LayerCodec.JoinSplit` | ArcWelderPlugin.py:228 | joining the split pieces with the separator gives back exactly the tool's output, so no text is lost |
| `LayerCodec.SplitJoin` | ArcWelderPlugin.py:191-228 | splitting the joined layers gives back exactly those layers, in order and with the same count, when no layer contains the separator and the separator's first character does not recur in it |
| `LayerCodec.LayerSeparatorFirstCharUnique` | ArcWelderPlugin.py:173 | the plugin's separator meets that condition |
| `ArcWelderArguments.DecimalString` | ArcWelderPlugin.py:209 | `%d` of the segment count is a non-empty string of digits |
| `ArcWelderArguments.ParseDecimalString` | ArcWelderPlugin.py:209 | reading that digit string back gives the segment count |
| `ArcWelderArguments.CommandArguments` | ArcWelderPlugin.py:199-218 | the executable comes first and the temporary path last; the length is 5, plus 2 for `-s`/`-a`, plus 1 each for `-z` and `-g` |
| `ArcWelderArguments.BuildCommandArguments` | ArcWelderPlugin.py:199-218 | building the list by appends and extends yields `CommandArguments` |
| `ArcWelderArguments.CommandLineRoundTrip` | ArcWelderPlugin.py:199-218 | the list fits the fixed grammar `tool -m -t -r [-s -a] [-z] [-g] path`; reading it back gives every value, with `-s` and `-a` present iff `min_arc_segment > 0`, `-z` iff 3D arcs are allowed, `-g` iff G90 influences the extruder |
| `GcodeFilter.Mark` | ArcWelderPlugin.py:231 | marking is an append: the old first element is a prefix of the new one, the rest of it is the marker, and every other element and the length are unchanged |
| `GcodeFilter.SkippedPlate` | ArcWelderPlugin.py:178-184 | a plate is skipped iff it has fewer than 2 layers or its first layer contains the marker; a skipped plate keeps its list |
| `GcodeFilter.WeldedIsSkipped` | ArcWelderPlugin.py:231 | a processed plate's new list is one that a later run skips |
| `GcodeFilter.WeldedWithHeader` | ArcWelderPlugin.py:186-231 | when the tool succeeds on a plate with a non-empty header, the header comes first with the marker appended, followed by the output's pieces; the list after the header joins back to the tool's output |
| `GcodeFilter.WeldedWithoutHeader` | ArcWelderPlugin.py:186-231 | when the tool succeeds on a plate with an empty header, the header is dropped and the marker is appended to the output's first piece; without the marker, the list joins back to the tool's output |
| `GcodeFilter.IdentityToolRoundTrip` | ArcWelderPlugin.py:186-231 | with an identity tool and no separator in any layer after the header, the plate comes back unchanged except for the marker on its first element; an empty header is dropped, so the marker lands on the first layer after it |
| `GcodeFilter.HeaderIsolated` | ArcWelderPlugin.py:186-197 | the tool's input is the join of the layers after the header; two plates that differ only in a non-empty header both fail or both succeed, and agree after their own marked headers |
| `GcodeFilter.FailedPlateNextRun` | ArcWelderPlugin.py:177-221 | after a tool failure the plate holds its layers without the header; if one layer is left, the next run skips it as too short; if more are left and the first is unmarked, the next run takes that layer as the header and gives the tool the layers after it |
| `GcodeFilter.FilterPlates` | ArcWelderPlugin.py:176-233 | the loop never adds or removes a plate id, and it ends either finished or at a tool failure |
| `GcodeFilter.SkippedPlateUnchanged` | ArcWelderPlugin.py:176-184 | a plate that is skipped keeps its list through the whole loop, even when the loop ends in a tool failure |
| `GcodeFilter.FinishedRunSettles` | ArcWelderPlugin.py:176-233 | after a finished loop, every plate it visited is one the next run skips |
| `GcodeFilter.SettledRunIsIdentity` | ArcWelderPlugin.py:176-184 | when every plate would be skipped, the loop changes nothing and leaves `dict_changed` as it was |
| `GcodeFilter.Idempotent` | ArcWelderPlugin.py:176-233 | running the filter again on the result of a finished run, with any options and any tool, changes nothing and leaves `dict_changed` false |
| `GcodeFilter.DictChangedIff` | ArcWelderPlugin.py:171-233 | a finished loop sets `dict_changed` iff at least one plate had 2 or more layers and no marker |
| `GcodeFilter.SkippedStep` | ArcWelderPlugin.py:177-184 | one turn of the loop on a skipped plate: the loop moves on with the dictionary and `dict_changed` unchanged |
| `GcodeFilter.FailedStep` | ArcWelderPlugin.py:186-221 | one turn of the loop on a plate the tool fails on: the loop stops there with that plate's list header-less |
| `GcodeFilter.WeldedStep` | ArcWelderPlugin.py:186-233 | one turn of the loop on a plate that is processed: its new list is stored and `dict_changed` becomes true |
| `GcodeFilter.OutsideOrderUnchanged` | ArcWelderPlugin.py:176 | plates the loop does not iterate over are never changed |
| `GcodeFilter.FailureIndex` | ArcWelderPlugin.py:176-221 | the result is the position of the first plate on which the tool fails (so no earlier plate fails), or the number of plates |
| `GcodeFilter.RunOutcome` | ArcWelderPlugin.py:176-233 | the loop finishes iff the tool fails on no plate; otherwise `check_output` raises at the first plate it fails on |
| `GcodeFilter.VisitedPlates` | ArcWelderPlugin.py:176-233 | up to and including the failing plate, each plate holds what the filter made of it: a skipped plate its old list, a processed plate its new list, the failing plate its list without the header |
| `GcodeFilter.UnvisitedPlates` | ArcWelderPlugin.py:176-221 | the plates after the failing plate are not visited and keep their lists |
| `GcodeFilter.GcodeDict.Assign` | ArcWelderPlugin.py:232 | assigning to an existing key replaces that plate's list and keeps the key order |
| `GcodeFilter.WeldPlate` | ArcWelderPlugin.py:186-233 | for a plate that is not skipped, the dictionary afterwards holds the plate's per-plate result, and `failed` is true iff the tool failed |
| `GcodeFilter.FilterAllPlates` | ArcWelderPlugin.py:171-233 | the loop, starting with `dict_changed` false, leaves the dictionary and ends with the outcome that `FilterPlates` gives over the dictionary order |
| `GcodeFilter.FilterGcode` | ArcWelderPlugin.py:145-236 | with no global stack, ArcWelder disabled or an empty dictionary, the hook returns and changes nothing; otherwise the new dictionary and the outcome (finished with `dict_changed`, or the tool failing at a plate) equal `FilterPlates` over the dictionary order |
| `VisibleSettings.MergeExtends` | ArcWelderPlugin.py:109-114 | the original preference string is a prefix of the merged string |
| `VisibleSettings.MergeKeepsSubstrings` | ArcWelderPlugin.py:111-113 | appending `;key` never removes a key that was already found |
| `VisibleSettings.MergeCoversKeys` | ArcWelderPlugin.py:109-114 | afterwards every setting key is a substring of the merged string |
| `VisibleSettings.MergeUnchangedIff` | ArcWelderPlugin.py:109-114 | nothing is appended iff every key was already a substring of the original string |
| `VisibleSettings.MergeVisibleSettings` | ArcWelderPlugin.py:109-114 | the loop computes `MergeKeys`; the original string is a prefix of the result; every key is in the result; `visible_settings_changed` is true iff some key was missing from the original, iff the string changed |
| `VisibleSettings.Preferences.MakeSettingsVisible` | ArcWelderPlugin.py:105-119 | if the settings were not yet made visible, the preference becomes the merged string; either way the flag ends true |

## Left out

- The ArcWelder binary and `subprocess.check_output` (lines 52, 221) are the
  `Tool` parameter. The arc fitting itself is not part of this repository.
- Temporary file creation, writing, reading and removal (lines 193-197, 224-226)
  are not modelled: writing then reading the file is folded into `Tool`. The
  file is not removed when the tool fails; a leaked file is not modelled.
- The file is read back in text mode (line 224), which turns `\r\n` and `\r`
  into `\n`. That conversion belongs to `Tool`. So the identity tool of
  `IdentityToolRoundTrip` is a whole write, run and read trip that gives back
  its input, not a binary that leaves the file alone: on text holding `\r` the
  latter is not an identity `Tool`.
- Floating-point settings: the division of the tolerance by 100 (line 158) and
  the `%f` formatting (lines 201-208) are not modelled. `Settings` holds the
  formatted strings as given.
- `int()` of the minimum segment count (line 160) is taken as already done.
- The values of the container stack's properties are inputs (`GlobalStack`).
- Platform executable selection, `chmod` and the `--version` check (lines 39-57)
  are environment set-up: the executable path is a parameter.
- Settings-definition injection into the host's caches (lines 89-103) is left
  out. It depends on the host's `SettingDefinition` and `DefinitionContainer`
  objects, which are not part of this model.
- `_updateAddedChildren` (lines 122-133) is left out for the same reason.
- `_getAllSettingKeys` (lines 136-142) is left out. Its result depends on
  `arcwelder_settings.def.json`, which is not part of this model, and on Python
  `in` over JSON values of unknown type. The keys are a parameter of
  `MakeSettingsVisible`.
- Container lookup and its early returns (lines 66-87) are host plumbing and are
  not modelled.
- Logging, preferences registration and signal connections (lines 59-62, 154,
  168, 179, 183, 194, 220, 222) are left out: they have no effect on the data.
- The scene `getattr`/`setattr` (lines 166, 236) means one thing in the model: a
  scene without `gcode_dict` is an empty `GcodeDict` (the `NoGcode` outcome).
- Duplicate keys in the iteration order are not modelled: a Python dict cannot
  have them, and `GcodeDict.Valid` excludes them.
