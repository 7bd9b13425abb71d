# Quick dailies for Nuke — a Dafny model

The plugin renders a "quick daily" from inside Nuke. It picks an iteration number for the new
daily from the dailies already on disk. It writes burn-in and slate text onto a node group. It
points two write nodes at their outputs: a movie and a PNG sequence. It chooses the movie codec
for the platform. Then it renders with both writers switched on only while the render runs.
Two hooks also hold codec tables:

- a QuickTime-settings hook that returns a settings map;
- a codec hook that writes knobs onto a write node directly.

The model has six modules, one file each:

- `Text` (`text.dfy`): the pieces of Python string handling the plugin relies on.
  - `%d`/`str` of an integer, with a read-back function as its inverse.
  - `str.split("\n")` and `"\n".join`.
  - The text a run of `s += line + "\n"` builds.
  - `str.replace(os.sep, "/")`.
- `Knobs` (`knobs.dfy`): the knob values and knob names the plugin writes, and the opaque
  QuickTime settings blob. It also holds `WriteNode`, a class whose knob map `setValue` updates
  in place.
- `CodecSettings` (`codec_settings.dfy`): the codec hook.
  - `GetQuicktimeSettings` is a module-level method that takes the `WriteNode` as a parameter
    and updates its knobs. It mirrors the hook's nested branches.
  - It is specified against `CodecApplied`, the writes in their order, and against
    `old(knobs) + CodecWrites(...)`, the hook's table overlaid on the node.
- `QuicktimeSettingsHook` (`quicktime_settings.dfy`): the settings hook, a pure function of the
  platform and the major version.
- `QuickDailies` (`quick_dailies.dfy`): the application.
  - Pure parts: the iteration choice and the burn-in and slate text.
  - The class `QuickDailyGroup` holds the group's knobs, the two writers' `disable` flags and
    the renders the host was asked for.
  - `SetupFormatting` and `Render` change that state step by step, as `_setup_formatting` and
    `_render` do.
  - `Render` models the try/finally: both writers end disabled, whether the render returns or
    raises.
- `HookAgreement` (`hook_agreement.dfy`): where the application's codec writes and the two
  hooks' tables agree, and where they part.

Two facts about the code shape the model:

- **Iteration.** The code (`app.py:198-202`) takes the maximum of the existing iterations, not
  one past it, or 1 when there are none. `ChosenIterationIsTaken` shows that a new daily then
  gets an existing daily's movie path. `IterationExamples` gives {1, 3, 5} ↦ 5.
- **Values and their lemmas.** The functions that compute the source's values carry no contract
  of their own. The lemmas in the table state what they mean:
  - `TopLeftBurnIn`, `UserName` and `BottomLeftBurnIn` (app.py:80-100) through
    `TopLeftBurnInLines` and `BottomLeftBurnInLines`;
  - `SlateBody` (app.py:103-115) through `SlateBodyIsTerminated`, `SlateBodyLines` and
    `SlateTaskOrStep`;
  - `AppCodecWrites` (app.py:143-153) through `RenderAppliedCodec` and the `HookAgreement`
    lemmas;
  - `OsSep` (`os.sep`) through `RenderAppliedSizeAndPaths` and `FormattingAppliedMessages`;
  - `CodecWrites` (hooks/codec_settings.py:34-61) through `CodecWritesShape` and the branch
    lemmas.

## Model

| member | source | states |
|---|---|---|
| `QuickDailies.MaxOf` | app.py:202 | Python's `max` of a non-empty list is one of its elements and is at least every element |
| `QuickDailies.ChooseIteration` | app.py:198-202 | no existing iterations gives 1; otherwise the result is an existing iteration and no existing one exceeds it (the maximum, no +1) |
| `QuickDailies.ChosenIterationIsTaken` | app.py:198-206 | with iterations on disk, the movie path built for the new daily equals the path built from an iteration already there |
| `QuickDailies.IterationExamples` | app.py:198-202 | [] gives 1; [1,3,5] and [3,5,1] give 5; [1,2] gives 2 |
| `QuickDailies.TopLeftBurnInLines` | app.py:80-83 | the top-left burn-in splits into exactly the project name and "<entity type> <entity name>" |
| `QuickDailies.BottomLeftBurnInLines` | app.py:94-100 | the bottom-left burn-in splits into `<name>#<iteration>` and the user's name; without a user, or without a "name" field, the name is "Unknown User"; the digits after '#' read back as the iteration |
| `QuickDailies.SlateBodyIsTerminated` | app.py:103-113 | the slate text is the slate lines, each followed by a line break |
| `QuickDailies.SlateLinesSingle` | app.py:103-113 | no slate line holds a line break when the context fields and the name hold none |
| `QuickDailies.SlateBodyLines` | app.py:103-115 | the slate text splits into Project, entity, Name, Iteration, then the task or step line, then Frames, and one empty trailing piece |
| `QuickDailies.SlateTaskOrStep` | app.py:108-113 | the slate has 6 lines with a task or a step and 5 without; a task wins over a step; the last line is always `Frames: <first> - <last>` |
| `QuickDailies.FormattingAppliedMessages` | app.py:66-115 | formatting sets the same '/'-separated font on the five text nodes, and the top-left, top-right (date), bottom-left and slate messages |
| `QuickDailies.FormattingAppliedKeepsOthers` | app.py:66-115 | formatting touches no knob other than fonts and messages, and never the frame counter's message |
| `QuickDailies.MovCodecAppliedKeeps` | app.py:141-153 | the codec writes touch only the movie writer |
| `QuickDailies.MovCodecAppliedWrites` | app.py:141-153 | the codec writes set exactly the platform's codec knobs on the movie writer and leave its other knobs as they were |
| `QuickDailies.RenderAppliedSizeAndPaths` | app.py:124-139 | the reformat gets the width and height settings (1024 and 540 by default); both writers get their paths with the separator replaced by '/' |
| `QuickDailies.RenderAppliedCodec` | app.py:141-153 | on win32/darwin the movie writer gets mov, jpeg, fps 23.97599983 and the settings blob; on linux2 it gets ffmpeg and "MOV format (mov)" in the codec knob; elsewhere no codec knob is written, and no other knob of the movie writer changes |
| `QuickDailies.RenderAppliedKeepsOthers` | app.py:119-153 | the render step leaves the text nodes alone, the PNG writer beyond its path, and the reformat beyond its size |
| `QuickDailies.QuickDailyGroup.SetKnob` | app.py:69 | `node(child)[knob].setValue(v)` changes that one knob |
| `QuickDailies.QuickDailyGroup.ExecuteMultiple` | app.py:164-167 | the host's render is recorded with the writers' enabled state at that moment, and it either returns or raises |
| `QuickDailies.QuickDailyGroup.SetupFormatting` | app.py:61-115 | the group's knobs become the formatting writes applied in order |
| `QuickDailies.QuickDailyGroup.Render` | app.py:119-171 | the knobs become the size, path and codec writes applied in order. Both writers end disabled. With no views, taking the first view raises and nothing is rendered. Otherwise exactly one render is requested: both writers enabled, frames first-1 through last by 1, the first view only. The outcome is raised exactly when the host fails |
| `QuickDailies.QuickDailyGroup.CreateDailyV1` | app.py:181-221 | the name is the comments stub's, the iteration is the chosen one, the movie path is the template applied to both, then formatting and render happen with the same guarantees as above |
| `Knobs.WriteNode.SetValue` | hooks/codec_settings.py:38 | setting a knob on the write node changes that knob only |
| `CodecSettings.GetQuicktimeSettings` | hooks/codec_settings.py:24-61 | the node's knobs become its old knobs overlaid with the branch's knob table; nothing else changes and nothing is returned |
| `CodecSettings.CodecAppliedIsOverlay` | hooks/codec_settings.py:34-61 | the writes made one after another amount to overlaying the branch's table on the node |
| `CodecSettings.CodecWritesShape` | hooks/codec_settings.py:34-61 | every path writes file_type and exactly one codec-selecting knob, and nothing outside its eight knobs; Linux never gets meta_codec, fps or settings; the blob is written exactly off Linux below the gate |
| `CodecSettings.LinuxMov64` | hooks/codec_settings.py:34-40 | linux2 from major 9: exactly file_type mov64, mov64_codec jpeg, mov64_quality_max "3" |
| `CodecSettings.LinuxFfmpeg` | hooks/codec_settings.py:41-44 | linux2 before major 9: exactly file_type ffmpeg and format "MOV format (mov)" |
| `CodecSettings.GatedMov64` | hooks/codec_settings.py:45-50 | off Linux past the gate: exactly file_type mov64, meta_codec jpeg, mov64_quality_max "3"; no fps, no settings |
| `CodecSettings.LegacyMov` | hooks/codec_settings.py:51-61 | off Linux below the gate: file_type mov, fps and the blob always; meta_codec jpeg and quality "3" from major 9, codec jpeg before |
| `CodecSettings.LinuxIgnoresGate` | hooks/codec_settings.py:34-45 | on Linux only "major >= 9" matters; minor and release are never consulted |
| `CodecSettings.Mov64GateOnlyFrom10v2` | hooks/codec_settings.py:45 | every version the gate admits is 10.0v2 or later |
| `CodecSettings.Mov64GateNotLexicographic` | hooks/codec_settings.py:45 | from 10.0v2 on, the gate admits exactly the versions with minor > 1 or release > 1, so it is not a version comparison |
| `CodecSettings.GateExamples` | hooks/codec_settings.py:45-61 | off Linux, 10.0v2 writes mov64 while 10.1v1 and 11.0v1 fall back to mov |
| `QuicktimeSettingsHook.Execute` | hooks/nuke_quickdailies_quicktime_settings.py:20-43 | darwin/win32: four keys (file_type mov, fps, the blob, and meta_codec jpeg above major 8 or codec jpeg otherwise); linux2: exactly file_type ffmpeg and format "MOV format (mov)"; any other platform: empty. The result depends on the platform and the major version only |
| `QuicktimeSettingsHook.ExecuteCodecKey` | hooks/nuke_quickdailies_quicktime_settings.py:31-34 | on darwin/win32, meta_codec is present iff major > 8 and codec iff major <= 8, so exactly one selector |
| `HookAgreement.HooksAgreeBefore9` | hooks/codec_settings.py:51-61 | on darwin/win32 before major 9, the codec hook writes exactly the settings hook's map |
| `HookAgreement.HooksAgreeFrom9` | hooks/codec_settings.py:51-61 | on darwin/win32 from major 9, below the gate, the codec hook writes the settings hook's map plus mov64_quality_max "3" |
| `HookAgreement.HooksPartPastGate` | hooks/codec_settings.py:45-50 | past the gate the codec hook picks mov64 without the blob, where the settings hook still returns mov with the blob |
| `HookAgreement.HooksOnLinux` | hooks/nuke_quickdailies_quicktime_settings.py:38-41 | on linux2 the hooks agree before major 9; from major 9 the codec hook writes mov64 where the settings hook returns ffmpeg |
| `HookAgreement.AppMatchesSettingsHook` | app.py:143-149 | on win32/darwin the application's own codec writes equal the settings hook's map for majors up to 8 (the old codec knob) |
| `HookAgreement.AppLinuxUsesCodecKnob` | app.py:151-153 | on linux2 the application writes "MOV format (mov)" into the codec knob, where both hooks write it into format |
| `HookAgreement.SameSettingsBlob` | hooks/nuke_quickdailies_quicktime_settings.py:36 | the application, the settings hook and the codec hook write the same settings blob |
| `Text.IntToDecimal` | app.py:106 | `%d` of an integer is one line of digits, with a leading '-' exactly for negatives and no leading zero |
| `Text.IntToDecimalRoundTrip` | app.py:94 | the digits `%d` produces read back as the integer |
| `Text.ReplaceWithSlash` | app.py:133 | `replace(os.sep, "/")` keeps the length and changes exactly the separator characters to '/' |
| `Text.ReplaceWithSlashRemovesSeparator` | app.py:138 | after the replacement no separator character is left |
| `Text.ReplaceSlashIsIdentity` | app.py:68 | where the separator is already '/', the replacement changes nothing |

## Left out

- The filesystem is not part of this model: `os.path.exists`, the `create_folder` hook,
  `tempfile.mkdtemp` and `os.path.join`. The PNG path and the joined font path are parameters.
- The template system is not part of this model: `as_template_fields`, `paths_from_template`,
  `get_fields` and `apply_fields`. The iterations found on disk are an input list, and the movie
  template is a function of name and iteration.
- The clock is left out. The date text `today.strftime("%d %b %Y")` is a session parameter.
- The tracking system's user lookup is a remote call. It is a parameter: an optional record of
  fields.
- The host's state is given as parameters: `sys.platform`, `nuke.NUKE_VERSION_*`, the root's
  first and last frame, `nuke.views()` and the width and height settings.
- `nuke.executeMultiple` is a recorded call with a `hostFails` flag. What the host renders is not
  modelled.
- `init_app`, `create_node` and `destroy_app` are host registration and logging. They are left
  out, and so is the comments panel (python/tk_nuke_quickdailies/comments_ui.py), a UI.
- `_get_comments` is a stub returning a fixed tuple. The model keeps only its name, "test".
- The fps value 23.97599983 is kept as the exact decimal; Python's binary float rounding is not
  modelled.
- The QuickTime settings hex string is kept verbatim in `Knobs.SettingsBlobHex` and is never
  decoded. Knob maps hold the token `SettingsBlob` in its place. The three copies in the source
  are the same text, so the three tables share one constant.
- The `disable` knobs are the two booleans of `QuickDailyGroup`, not entries of its knob map.
- Knob names are an enumeration. `Knobs.KnobName` gives the host's string for each.
- Versions are non-negative: `NukeVersion` has `nat` fields.
- A context without an entity is not modelled: the code indexes the entity unconditionally,
  so such a context raises.
- A task or step is present or absent. The code tests the record's truth value, and an empty
  record is not modelled.
- The codec hook's docstring promises a returned dictionary. The code creates an empty one, never
  fills it and returns nothing. `CodecSettings.GetQuicktimeSettings` returns nothing.
- `QuickDailies.TopLeftBurnInLines`, `QuickDailies.BottomLeftBurnInLines` and
  `QuickDailies.SlateBodyLines` require line-break-free inputs. A project or task name holding a
  line break would add lines, and the lemmas do not describe that case.
