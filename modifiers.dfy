/**
 * The six modifier flags the handler tracks, and how one decoded key event
 * changes them: a release clears the flag of its key, a fresh press sets it,
 * an auto-repeat leaves everything alone.
 */
module Modifiers {
  import opened Wrappers
  import opened KeyMessage

  /** Virtual-key codes of the tracked modifier keys (winuser.h). */
  const VK_SHIFT: Word := 0x10
  const VK_CONTROL: Word := 0x11
  const VK_MENU: Word := 0x12
  const VK_LWIN: Word := 0x5B
  const VK_RWIN: Word := 0x5C
  const VK_APPS: Word := 0x5D

  datatype Modifier = Shift | Apps | LWin | RWin | Alt | Control

  /** The virtual-key code whose events drive a modifier's flag. */
  function VkOf(k: Modifier): Word {
    match k
    case Shift => VK_SHIFT
    case Apps => VK_APPS
    case LWin => VK_LWIN
    case RWin => VK_RWIN
    case Alt => VK_MENU
    case Control => VK_CONTROL
  }

  /** The modifier a virtual-key code drives, if any: the `case` labels of the handler's switches. */
  function ModifierOf(vkCode: Word): (r: Option<Modifier>)
    ensures forall k :: r == Some(k) <==> VkOf(k) == vkCode
  {
    if vkCode == VK_APPS then Some(Apps)
    else if vkCode == VK_SHIFT then Some(Shift)
    else if vkCode == VK_LWIN then Some(LWin)
    else if vkCode == VK_RWIN then Some(RWin)
    else if vkCode == VK_MENU then Some(Alt)
    else if vkCode == VK_CONTROL then Some(Control)
    else None
  }

  /** A snapshot of the six flags. */
  datatype Modifiers = Modifiers(shift: bool, apps: bool, lWin: bool, rWin: bool, alt: bool, control: bool)
  {
    /** Whether modifier `k` is recorded as down. */
    function Held(k: Modifier): bool {
      match k
      case Shift => shift
      case Apps => apps
      case LWin => lWin
      case RWin => rWin
      case Alt => alt
      case Control => control
    }

    /** The same flags except that `k` is recorded as `down`. */
    function With(k: Modifier, down: bool): (m: Modifiers)
      ensures forall j :: m.Held(j) == if j == k then down else Held(j)
    {
      match k
      case Shift => this.(shift := down)
      case Apps => this.(apps := down)
      case LWin => this.(lWin := down)
      case RWin => this.(rWin := down)
      case Alt => this.(alt := down)
      case Control => this.(control := down)
    }
  }

  /** The flags at process start: nothing held. */
  const NoneHeld := Modifiers(false, false, false, false, false, false)

  /** One `switch (vkCode)` of the handler: record the key's modifier, if it has one, as `down`. */
  function Track(m: Modifiers, vkCode: Word, down: bool): (r: Modifiers)
    ensures forall k :: r.Held(k) == if VkOf(k) == vkCode then down else m.Held(k)
  {
    match ModifierOf(vkCode)
    case None => m
    case Some(k) => m.With(k, down)
  }

  /**
   * The flags after one event. A release (whatever its repeat bit says)
   * clears exactly the flag of its own key; a fresh press sets exactly that
   * flag; a repeat changes nothing.
   */
  function Step(m: Modifiers, e: KeyEvent): (r: Modifiers)
    ensures e.isKeyReleased ==> forall k :: r.Held(k) == (m.Held(k) && VkOf(k) != e.vkCode)
    ensures e.IsFreshPress() ==> forall k :: r.Held(k) == (m.Held(k) || VkOf(k) == e.vkCode)
    ensures !e.isKeyReleased && e.wasKeyDown ==> r == m
  {
    if e.isKeyReleased then Track(m, e.vkCode, false)
    else if !e.wasKeyDown then Track(m, e.vkCode, true)
    else m
  }

  /** The flags after the host has delivered `events` in order, one callback each. */
  function Replay(m: Modifiers, events: seq<KeyEvent>): Modifiers
    decreases |events|
  {
    if events == [] then m
    else Step(Replay(m, events[..|events| - 1]), events[|events| - 1])
  }

  /**
   * The last up/down transition of key `vkCode` in `events`: false for a
   * release, true for a fresh press; auto-repeats are not transitions.
   */
  function LastTransition(events: seq<KeyEvent>, vkCode: Word): Option<bool>
    decreases |events|
  {
    if events == [] then None
    else
      var e := events[|events| - 1];
      if e.vkCode == vkCode && e.isKeyReleased then Some(false)
      else if e.vkCode == vkCode && e.IsFreshPress() then Some(true)
      else LastTransition(events[..|events| - 1], vkCode)
  }

  /** Each flag reflects the last observed transition of its own key, or keeps its initial value if there was none. */
  lemma {:induction false} ReplayHeld(m: Modifiers, events: seq<KeyEvent>, k: Modifier)
    ensures Replay(m, events).Held(k)
         == match LastTransition(events, VkOf(k)) case Some(down) => down case None => m.Held(k)
    decreases |events|
  {
    if events != [] {
      ReplayHeld(m, events[..|events| - 1], k);
    }
  }
}
