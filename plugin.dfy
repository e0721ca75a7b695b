/**
 * The plugin's mutable state and its two operations on it: the keyboard
 * callback, which updates the six modifier flags and may queue an alias
 * command, and the loading of the handled-key set at initialisation.
 *
 * The host's key-name table (`keyboard_get_virtual_key_code_name`) and the
 * configuration lookup (`GetBool` on the "Keys" section) are passed in as
 * functions; the command queue is the `command` the callback returns.
 */
module OnKey {
  import opened Wrappers
  import opened KeyMessage
  import opened Modifiers
  import opened Alias
  import opened KeyConfig

  class Plugin {
    var keyShift: bool
    var keyApps: bool
    var keyLWin: bool
    var keyRWin: bool
    var keyAlt: bool
    var keyControl: bool

    /** Names of the keys the configuration enables. */
    var handledKeys: set<string>

    /** The six flags as one value. */
    function Mods(): Modifiers
      reads this
    {
      Modifiers(keyShift, keyApps, keyLWin, keyRWin, keyAlt, keyControl)
    }

    /** Process start: no modifier down, no key handled. */
    constructor ()
      ensures Mods() == NoneHeld && handledKeys == {}
    {
      keyShift, keyApps, keyLWin, keyRWin, keyAlt, keyControl := false, false, false, false, false, false;
      handledKeys := {};
    }

    /**
     * The keyboard callback. The flags move by Step; the event is handled
     * exactly when it is a fresh press of a configured key, and then the one
     * command queued is the alias for that key under the flags as they stand
     * after this very event has been tracked.
     */
    method OnKey(wParam: int, lParam: int, keyName: Word -> string) returns (handled: bool, command: Option<string>)
      modifies this
      ensures Mods() == Step(old(Mods()), Decode(wParam, lParam))
      ensures handledKeys == old(handledKeys)
      ensures var e := Decode(wParam, lParam);
        handled <==> e.IsFreshPress() && keyName(e.vkCode) in handledKeys
      ensures var e := Decode(wParam, lParam);
        command == if handled then Some(BuildCommand(keyName(e.vkCode), Mods())) else None
    {
      var vkCode := LoWord(wParam);
      var keyFlags := HiWord(lParam);
      var wasKeyDown := HasFlag(keyFlags, KF_REPEAT);
      var isKeyReleased := HasFlag(keyFlags, KF_UP);

      if isKeyReleased {
        TrackKey(vkCode, false);
      } else if !wasKeyDown {
        TrackKey(vkCode, true);
        var vkCodeString := keyName(vkCode);
        if vkCodeString in handledKeys {
          var alias := MakeAlias(vkCodeString);
          return true, Some(alias);
        }
      }
      return false, None;
    }

    /** One `switch (vkCode)` of the callback: a tracked modifier's flag becomes `down`, nothing else changes. */
    method TrackKey(vkCode: Word, down: bool)
      modifies this
      ensures Mods() == Track(old(Mods()), vkCode, down)
      ensures handledKeys == old(handledKeys)
    {
      if vkCode == VK_APPS {
        keyApps := down;
      } else if vkCode == VK_SHIFT {
        keyShift := down;
      } else if vkCode == VK_LWIN {
        keyLWin := down;
      } else if vkCode == VK_RWIN {
        keyRWin := down;
      } else if vkCode == VK_MENU {
        keyAlt := down;
      } else if vkCode == VK_CONTROL {
        keyControl := down;
      }
    }

    /** The alias for a handled key, appended piece by piece under the current flags. */
    method MakeAlias(vkCodeString: string) returns (alias: string)
      ensures alias == BuildCommand(vkCodeString, Mods())
    {
      alias := "/onkey_";
      alias := alias + vkCodeString;
      ghost var before := alias;
      if keyApps { alias := alias + "_apps"; }
      assert alias == before + (if keyApps then "_apps" else "");
      before := alias;
      if keyControl { alias := alias + "_ctrl"; }
      assert alias == before + (if keyControl then "_ctrl" else "");
      before := alias;
      if keyShift { alias := alias + "_shift"; }
      assert alias == before + (if keyShift then "_shift" else "");
      before := alias;
      if keyLWin || keyRWin { alias := alias + "_meta"; }
      assert alias == before + (if keyLWin || keyRWin then "_meta" else "");
    }

    /**
     * Loading the "Keys" section: every '\n'-separated name in `buffer` whose
     * configured boolean is true joins the handled set; nothing else changes.
     */
    method LoadKeys(buffer: string, configured: string -> bool)
      modifies this`handledKeys
      ensures handledKeys == old(handledKeys) + Enabled(Lines(buffer), configured)
    {
      var pos := 0;
      while pos < |buffer|
        invariant 0 <= pos <= |buffer|
        invariant handledKeys + Enabled(Lines(buffer[pos..]), configured)
               == old(handledKeys) + Enabled(Lines(buffer), configured)
      {
        var end := FindNewline(buffer, pos);
        var token := buffer[pos..end];
        var next := if end < |buffer| then end + 1 else end;
        EnabledFrom(buffer, pos, end, configured);
        if configured(token) {
          handledKeys := handledKeys + {token};
        }
        pos := next;
      }
    }
  }
}
