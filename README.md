# OnKey keyboard callback — a Dafny model

OnKey is a plugin for the Ashita game-client framework. It turns presses of keys the game does not support into chat-command aliases. The host calls the plugin's keyboard callback `plugin::myOnKey` once per key message. The callback keeps six modifier flags (Shift, Apps, left Windows, right Windows, Alt, Control) up to date. On a fresh press of a key whose name is listed as enabled in the "Keys" configuration section, it queues `/onkey_<NAME>` followed by `_apps`, `_ctrl`, `_shift` and `_meta` for the modifiers that are down, in that order, and reports the key as handled. At initialisation the plugin reads the "Keys" section: a `'\n'`-separated list of key names, each with a boolean.

The model, one module per concern:

- `KeyMessage` (keymessage.dfy) decodes a message into a `KeyEvent`. The virtual-key code is the low word of `wParam` and the key flags are the high word of `lParam`, with `KF_REPEAT` = 0x4000 and `KF_UP` = 0x8000 as in the Win32 WM_KEYDOWN layout. Machine values are unbounded integers reduced with an explicit `%`, so a negative `lParam` is read through its two's-complement bits, as the LOWORD and HIWORD macros read it.
- `Modifiers` (modifiers.dfy) holds the six flags as a value and the pure transition `Step` for one event. `Replay` applies a whole run of events.
- `Alias` (alias.dfy) holds `BuildCommand`, the command as the callback appends it. It also gives an independent description: a fixed table of suffixes, the set `Visible` of suffixes a flag state makes visible, and a parser that reads the suffixes back out of a command.
- `KeyConfig` (keyconfig.dfy) splits the key buffer the way repeated `std::getline(ss, token, '\n')` calls do (`Lines`). `Join` is its partner. `Enabled` is the set of names configured true.
- `OnKey` (plugin.dfy) has the class `Plugin`. Its fields are the six flags and `handledKeys`. `OnKey` is the callback and `LoadKeys` is the loading loop. The callback's two `switch (vkCode)` statements are one method, `TrackKey`, called with `false` on a release and `true` on a fresh press. The appends that build the command are the method `MakeAlias`.
- `SeqFacts` (seqs.dfy) holds a few sequence lemmas and `FlatMap`, which writes the suffix tags one after another; `Wrappers` (wrappers.dfy) holds `Option`.

The host's key-name table `keyboard_get_virtual_key_code_name` and the configuration lookup `GetBool` are passed in as functions (`Word -> string`, `string -> bool`). Queuing a command is modelled by returning it.

A note on the behaviour as written: a handled modifier key gets its own suffix. The flags are updated before the alias is built. So if `VK_SHIFT` is enabled, pressing Shift queues `/onkey_VK_SHIFT_shift`. `OnKey`'s contract states this: the command is built from the flags after the event.

## Model

| member | source | states |
|---|---|---|
| `KeyMessage.HiLoMakeLParam` | src/onkey.cpp:42-43 | HIWORD and LOWORD of a 32-bit signed LPARAM packed from a flag word and a repeat count return those two words, including when the top bit makes the LPARAM negative |
| `KeyMessage.DecodeMakeLParam` | src/onkey.cpp:42-50 | a message packed from a key code and a flag word decodes to that key code, with the repeat and release bits taken from the flag word |
| `KeyMessage.ReleasedIffNegative` | src/onkey.cpp:43-50 | with a 32-bit signed lParam, an event is a release exactly when lParam is negative, since KF_UP is bit 31 of lParam |
| `KeyMessage.Decode` | src/onkey.cpp:42-50 | the key code is the low 16 bits of wParam; the event is a repeat exactly when bit 30 of lParam (KF_REPEAT in the high word) is set, and a release exactly when bit 31 (KF_UP) is set, for negative lParam as well |
| `KeyMessage.MakeLParam` | src/onkey.cpp:43 | the packed LPARAM lies in the signed 32-bit range |
| `Modifiers.ModifierOf` | src/onkey.cpp:54-75 | a key code maps to modifier k exactly when it is k's virtual-key code (VK_SHIFT 0x10, VK_CONTROL 0x11, VK_MENU 0x12, VK_LWIN 0x5B, VK_RWIN 0x5C, VK_APPS 0x5D); every other code maps to none |
| `Modifiers.Track` | src/onkey.cpp:53-99 | each `switch (vkCode)`: the flag of the modifier whose virtual-key code is vkCode becomes `down`, and every other flag keeps its value; a code that is no modifier's changes nothing |
| `Modifiers.Step` | src/onkey.cpp:53-99 | a release, whatever its repeat bit, clears only its own key's flag; a fresh press sets only its own key's flag; a repeated key-down changes nothing; any other key code changes no flag |
| `Modifiers.ReplayHeld` | src/onkey.cpp:29-34 | after any run of events, each flag equals the last release (false) or fresh press (true) of its own key, or its initial value if the run has neither |
| `Alias.BuildCommand` | src/onkey.cpp:101-116 | the command starts with "/onkey_" followed by the key name, and is exactly that when none of Apps, Control, Shift or a Windows key is down; its full form is given by BuildCommandIsReference |
| `Alias.Filter` | src/onkey.cpp:112-116 | the suffixes kept are exactly those of the table that are visible |
| `Alias.FilterIncreasing` | src/onkey.cpp:112-116 | filtering keeps the table's order |
| `Alias.Shown` | src/onkey.cpp:112-116 | the suffixes shown are exactly the visible ones, in strictly increasing table order, so each appears at most once |
| `Alias.BuildCommandIsReference` | src/onkey.cpp:102-116 | the command the callback appends equals "/onkey_" + name + the tags of the shown suffixes, in table order |
| `Alias.ParseConcat` | src/onkey.cpp:112-116 | reading the tags back from the suffix part of a command returns exactly the suffixes written |
| `Alias.CommandDeterminesVisible` | src/onkey.cpp:109-116 | for a given key name, two flag states that give the same command make the same suffixes visible |
| `Alias.SameCommandIffSameVisible` | src/onkey.cpp:112-116 | for a given key name, two flag states give the same command if and only if they make the same suffixes visible |
| `Alias.AltNeverShown` | src/onkey.cpp:114 | two states that differ only in Alt give the same command |
| `Alias.MetaMerged` | src/onkey.cpp:116 | with either Windows key down, the command is the same as with only the left one down, and "_meta" is shown exactly once |
| `Alias.CtrlShiftAltExample` | src/onkey.cpp:112-116 | with Shift, Control and Alt down the command is "/onkey_<name>_ctrl_shift" |
| `Alias.ReleasedModifierNotShown` | src/onkey.cpp:53-76 | after Apps, Control or Shift is released, the next event for any other key leaves that modifier's suffix not visible; the Windows keys share "_meta" (line 116), so for them see WinReleaseKeepsMetaIffOtherHeld |
| `KeyConfig.FindNewline` | src/onkey.cpp:278 | the scan stops at the first '\n' at or after the start position, or at the end of the buffer |
| `KeyConfig.LinesNoNewline` | src/onkey.cpp:276-278 | `Lines`, the tokens the getline loop extracts: none contains the '\n' delimiter; LinesFrom gives one getline step, and LinesJoin and JoinLines relate `Lines` to its partner `Join` both ways |
| `KeyConfig.NewlineIndexUnique` | src/onkey.cpp:278 | the end of a token is determined: the first '\n' or the end of the buffer |
| `KeyConfig.LinesFrom` | src/onkey.cpp:278 | one getline call takes the characters up to the next '\n' and continues after that '\n' |
| `KeyConfig.LinesJoin` | src/onkey.cpp:276-278 | splitting '\n'-joined names gives the names back, provided none contains '\n' and the last is not empty |
| `KeyConfig.JoinLines` | src/onkey.cpp:276-278 | joining the tokens of a buffer gives the buffer back, without a final '\n' if it had one |
| `KeyConfig.EnabledCons` | src/onkey.cpp:279-281 | the enabled set of a token list is its first token, exactly when that token is configured true, together with the enabled set of the rest |
| `KeyConfig.EnabledFrom` | src/onkey.cpp:278-281 | one loop step adds the current token exactly when it is configured true, and the rest of the buffer supplies the rest |
| `KeyConfig.DefaultConfigEnablesNothing` | src/onkey.cpp:286-289 | reading back the four default keys, all configured false, splits them exactly and enables none |
| `Alias.WinReleaseKeepsMetaIffOtherHeld` | src/onkey.cpp:53-116 | after one Windows key is released, "_meta" stays visible exactly when the other Windows key is still held |
| `OnKey.Plugin.constructor` | src/onkey.cpp:29-38 | at process start no flag is set and no key is handled |
| `OnKey.Plugin.OnKey` | src/onkey.cpp:40-124 | the flags move as Step prescribes and handledKeys is unchanged; the result is true iff the event is a fresh press whose key name is in handledKeys; exactly then one command is produced, equal to BuildCommand of that name and the updated flags, and otherwise none |
| `OnKey.Plugin.TrackKey` | src/onkey.cpp:53-99 | the flag of the modifier whose virtual-key code is `vkCode` becomes `down`; every other flag, and handledKeys, keep their values; a code that is no modifier's changes nothing |
| `OnKey.Plugin.MakeAlias` | src/onkey.cpp:101-116 | the command appended under the current flags is BuildCommand of the key name and those flags, that is "/onkey_" + name + the tags of the shown suffixes in table order |
| `OnKey.Plugin.LoadKeys` | src/onkey.cpp:275-282 | handledKeys gains exactly the '\n'-separated names of the buffer whose configured boolean is true; names configured false are never added, and the flags are untouched |

## Left out

- Plugin.constructor: the six flags and `handledKeys` are process globals at namespace scope (src/onkey.cpp:29-38), not members of `plugin`. The class fields stand for those globals, and the constructor stands for their static initialisation, which happens once per process. `plugin::plugin` (src/onkey.cpp:134-139) resets none of them. So a second plugin instance created in the same process inherits the old flags and keys, whereas the model starts each `Plugin` with none. `LoadKeys` adds to the old `handledKeys`, as `Initialize` only ever inserts into the set.
- The plugin metadata getters `GetName`, `GetAuthor`, `GetDescription`, `GetLink`, `GetVersion`, `GetInterfaceVersion`, `GetPriority` and `GetFlags`, and the exports `expCreatePlugin` and `expGetInterfaceVersion` (src/onkey.cpp:148-242, 327-345). They return constants for the host.
- The host calls are not modelled. `QueueCommand` becomes the returned command, and its priority argument 1 is not modelled. `Load`, `GetSectionKeys`, `GetBool`, `SetValue`, `Save`, `AddCallback` and `RemoveCallback` are host I/O. `Release` only removes the callback.
- The global `OnKey` trampoline (src/onkey.cpp:126-129) only forwards to `myOnKey`.
- The branch in `Initialize` that creates the default file is host I/O, and so is the choice between loading and creating. `LoadKeys` models the branch that loads. The default keys appear only in `DefaultConfigEnablesNothing`.
- The 10000-byte stack buffer is not modelled. `std::stringstream ss(buffer)` reads the buffer only up to its first NUL. The model's `buffer` is that text, of any length, so `token.c_str()` is the whole token. `LoadKeys` accepts a `buffer` that contains `'\0'`, but no such text can reach the loop in the source.
- `Initialize` ignores the `result` of `GetSectionKeys` (src/onkey.cpp:275). After a failed read, `ss` is built from a buffer that was never written and may hold no NUL at all. `LoadKeys` assumes the host filled the buffer with NUL-terminated text, so that case is not modelled.
- The computed but unused `scanCode`, `isExtendedKey` and `repeatCount`, and the ignored `handled` argument. None of them affects the result.
- The key-name table `keyboard_get_virtual_key_code_name` is defined in vkcodes.hpp, which is not part of this model. It is a parameter of `OnKey`.
- The bitwise tests `(keyFlags & KF_X) == KF_X` use single-bit masks. They are modelled as reading the bit the mask selects.
- Interleaving with other plugins and threads is not modelled. The host delivers events one at a time on one thread, and the model runs them in sequence.
