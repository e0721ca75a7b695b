/**
 * Decoding of the raw keyboard message the host hands to the callback.
 *
 * The virtual-key code is the low word of wParam; the key flags are the high
 * word of lParam, laid out as for the Win32 WM_KEYDOWN / WM_KEYUP messages.
 * Machine values are taken as unbounded integers and reduced explicitly, so a
 * negative (signed) lParam is read through its two's-complement bits just as
 * the LOWORD and HIWORD macros read it.
 */
module KeyMessage {

  /** A 16-bit WORD. */
  type Word = x: int | 0 <= x < 0x1_0000

  /** Single-bit masks of the high word of lParam. */
  const KF_EXTENDED: Word := 0x0100
  const KF_REPEAT: Word := 0x4000
  const KF_UP: Word := 0x8000

  /** LOWORD: bits 0..15 of a machine value. */
  function LoWord(x: int): Word {
    x % 0x1_0000
  }

  /** HIWORD: bits 16..31 of a machine value. */
  function HiWord(x: int): Word {
    (x % 0x1_0000_0000) / 0x1_0000
  }

  /** `(flags & flag) == flag` for a single-bit mask `flag`: the bit that `flag` selects is set. */
  predicate HasFlag(flags: Word, flag: Word)
    requires flag in {KF_EXTENDED, KF_REPEAT, KF_UP}
  {
    (flags / flag) % 2 == 1
  }

  /** What the handler extracts from one message. */
  datatype KeyEvent = KeyEvent(vkCode: Word, wasKeyDown: bool, isKeyReleased: bool)
  {
    /** A key-down that is not an auto-repeat. */
    predicate IsFreshPress() {
      !isKeyReleased && !wasKeyDown
    }
  }

  /**
   * The handler's reading of one message: the key code is the low 16 bits of
   * wParam, and the repeat and release flags are bits 30 and 31 of lParam.
   */
  function Decode(wParam: int, lParam: int): (e: KeyEvent)
    ensures e.vkCode == wParam % 0x1_0000
    ensures e.wasKeyDown <==> Bit(lParam, 30)
    ensures e.isKeyReleased <==> Bit(lParam, 31)
  {
    var keyFlags := HiWord(lParam);
    FlagBits(lParam);
    KeyEvent(LoWord(wParam), HasFlag(keyFlags, KF_REPEAT), HasFlag(keyFlags, KF_UP))
  }

  /** Bit `i` (30 or 31) of the 32-bit two's-complement form of `x`. */
  predicate Bit(x: int, i: int)
    requires i in {30, 31}
  {
    var u := x % 0x1_0000_0000;
    if i == 31 then u / 0x8000_0000 == 1 else (u / 0x4000_0000) % 2 == 1
  }

  /** KF_REPEAT and KF_UP of the high word are bits 30 and 31 of the machine value. */
  lemma FlagBits(x: int)
    ensures HasFlag(HiWord(x), KF_REPEAT) <==> Bit(x, 30)
    ensures HasFlag(HiWord(x), KF_UP) <==> Bit(x, 31)
  {
    var u := x % 0x1_0000_0000;
    var h := u / 0x1_0000;
    assert h / 0x4000 == u / 0x4000_0000;
    assert h / 0x8000 == u / 0x8000_0000;
  }

  /** The 32-bit signed LPARAM that carries `repeatCount` in its low word and `flags` in its high word. */
  function MakeLParam(repeatCount: Word, flags: Word): (l: int)
    ensures -0x8000_0000 <= l < 0x8000_0000
  {
    var u := flags * 0x1_0000 + repeatCount;
    if u < 0x8000_0000 then u else u - 0x1_0000_0000
  }

  /** Taking the words back out of a packed LPARAM gives the words put in. */
  lemma HiLoMakeLParam(repeatCount: Word, flags: Word)
    ensures HiWord(MakeLParam(repeatCount, flags)) == flags
    ensures LoWord(MakeLParam(repeatCount, flags)) == repeatCount
  {
    var u := flags * 0x1_0000 + repeatCount;
    assert 0 <= u < 0x1_0000_0000;
    assert MakeLParam(repeatCount, flags) % 0x1_0000_0000 == u;
    assert u / 0x1_0000 == flags;
    assert u % 0x1_0000 == repeatCount;
    assert MakeLParam(repeatCount, flags) % 0x1_0000 == u % 0x1_0000;
  }

  /** A message packed from a key code and flag word decodes to that key code and those two flag bits. */
  lemma DecodeMakeLParam(vkCode: Word, repeatCount: Word, flags: Word)
    ensures Decode(vkCode, MakeLParam(repeatCount, flags))
         == KeyEvent(vkCode, HasFlag(flags, KF_REPEAT), HasFlag(flags, KF_UP))
  {
    HiLoMakeLParam(repeatCount, flags);
  }

  /** KF_UP is the top bit of the flag word. */
  lemma KeyUpIsTopBit(flags: Word)
    ensures HasFlag(flags, KF_UP) <==> flags >= 0x8000
  {
  }

  /** With a 32-bit signed lParam, a message is a release exactly when lParam is negative. */
  lemma ReleasedIffNegative(wParam: int, lParam: int)
    requires -0x8000_0000 <= lParam < 0x8000_0000
    ensures Decode(wParam, lParam).isKeyReleased <==> lParam < 0
  {
    var keyFlags := HiWord(lParam);
    KeyUpIsTopBit(keyFlags);
    if lParam < 0 {
      assert lParam % 0x1_0000_0000 == lParam + 0x1_0000_0000;
    } else {
      assert lParam % 0x1_0000_0000 == lParam;
    }
  }
}
