/**
 * The alias command queued for a handled key: "/onkey_" followed by the key
 * name and one suffix per visible modifier, always in the order apps, ctrl,
 * shift, meta. Alt never contributes; the two Windows keys share "_meta".
 */
module Alias {
  import opened Wrappers
  import opened KeyMessage
  import opened Modifiers
  import opened SeqFacts

  const Prefix: string := "/onkey_"

  /** The command as the handler appends it, one `if` per suffix. */
  function BuildCommand(name: string, m: Modifiers): (r: string)
    ensures Prefix + name <= r
    ensures r == Prefix + name <==> !(m.apps || m.control || m.shift || m.lWin || m.rWin)
  {
    Prefix + name
    + (if m.apps then "_apps" else "")
    + (if m.control then "_ctrl" else "")
    + (if m.shift then "_shift" else "")
    + (if m.lWin || m.rWin then "_meta" else "")
  }

  // ---------------------------------------------------------------------
  // Reference description: a fixed table of suffixes, each shown when its
  // modifier is down.

  datatype Suffix = AppsSuffix | CtrlSuffix | ShiftSuffix | MetaSuffix

  /** The fixed order in which suffixes appear. */
  const SuffixOrder: seq<Suffix> := [AppsSuffix, CtrlSuffix, ShiftSuffix, MetaSuffix]

  function Rank(s: Suffix): nat {
    match s
    case AppsSuffix => 0
    case CtrlSuffix => 1
    case ShiftSuffix => 2
    case MetaSuffix => 3
  }

  function Tag(s: Suffix): string {
    match s
    case AppsSuffix => "_apps"
    case CtrlSuffix => "_ctrl"
    case ShiftSuffix => "_shift"
    case MetaSuffix => "_meta"
  }

  /** Whether these flags make a suffix visible: Alt drives none, either Windows key drives meta. */
  predicate Shows(m: Modifiers, s: Suffix) {
    match s
    case AppsSuffix => m.Held(Apps)
    case CtrlSuffix => m.Held(Control)
    case ShiftSuffix => m.Held(Shift)
    case MetaSuffix => m.Held(LWin) || m.Held(RWin)
  }

  /** The suffixes these flags make visible. */
  function Visible(m: Modifiers): set<Suffix> {
    set s | Shows(m, s)
  }

  /** The members of `order` that are in `on`, in the order of `order`. */
  function Filter(order: seq<Suffix>, on: set<Suffix>): (r: seq<Suffix>)
    ensures forall s :: s in r <==> s in order && s in on
    decreases |order|
  {
    if order == [] then []
    else (if order[0] in on then [order[0]] else []) + Filter(order[1..], on)
  }

  /** Strictly increasing by table rank, so no suffix occurs twice. */
  predicate Increasing(ss: seq<Suffix>) {
    forall i, j :: 0 <= i < j < |ss| ==> Rank(ss[i]) < Rank(ss[j])
  }

  /** Filtering keeps the order of the table. */
  lemma {:induction false} FilterIncreasing(order: seq<Suffix>, on: set<Suffix>)
    requires Increasing(order)
    ensures Increasing(Filter(order, on))
    decreases |order|
  {
    if order != [] {
      assert Increasing(order[1..]);
      FilterIncreasing(order[1..], on);
      var rest := Filter(order[1..], on);
      forall s | s in rest ensures Rank(order[0]) < Rank(s) {
        var j :| 0 <= j < |order[1..]| && order[1..][j] == s;
        assert order[j + 1] == s;
      }
    }
  }

  /** The table lists every suffix, in increasing rank. */
  lemma SuffixOrderComplete()
    ensures Increasing(SuffixOrder)
    ensures forall s :: s in SuffixOrder
  {
    forall s ensures s in SuffixOrder {
      assert SuffixOrder[Rank(s)] == s;
    }
  }

  /** The suffixes shown for `m`: each one exactly when it is visible, strictly in table order. */
  function Shown(m: Modifiers): (r: seq<Suffix>)
    ensures forall s :: s in r <==> s in Visible(m)
    ensures Increasing(r)
  {
    SuffixOrderComplete();
    FilterIncreasing(SuffixOrder, Visible(m));
    Filter(SuffixOrder, Visible(m))
  }

  /** The tags of `ss`, written one after another. */
  function Concat(ss: seq<Suffix>): string {
    FlatMap(Tag, ss)
  }

  // ---------------------------------------------------------------------
  // Reading the suffixes back out of a command.

  /**
   * Consumes, in the order of `order`, each tag that `t` starts with; succeeds
   * when nothing is left over.
   */
  function ParseSuffixes(t: string, order: seq<Suffix>): Option<seq<Suffix>>
    decreases |order|
  {
    if order == [] then (if t == "" then Some([]) else None)
    else
      var tag := Tag(order[0]);
      if tag <= t then
        match ParseSuffixes(t[|tag|..], order[1..])
        case Some(rest) => Some([order[0]] + rest)
        case None => None
      else ParseSuffixes(t, order[1..])
  }

  /** One step of Filter, on a list written as head and tail. */
  lemma FilterCons(x: Suffix, rest: seq<Suffix>, on: set<Suffix>)
    ensures Filter([x] + rest, on) == (if x in on then [x] else []) + Filter(rest, on)
  {
    assert ([x] + rest)[0] == x;
    assert ([x] + rest)[1..] == rest;
  }

  /** Each suffix is visible exactly when its modifier (for meta, either Windows key) is down. */
  lemma VisibleMembers(m: Modifiers)
    ensures AppsSuffix in Visible(m) <==> m.apps
    ensures CtrlSuffix in Visible(m) <==> m.control
    ensures ShiftSuffix in Visible(m) <==> m.shift
    ensures MetaSuffix in Visible(m) <==> m.lWin || m.rWin
  {
    assert Shows(m, AppsSuffix) == m.apps;
    assert Shows(m, CtrlSuffix) == m.control;
    assert Shows(m, ShiftSuffix) == m.shift;
    assert Shows(m, MetaSuffix) == (m.lWin || m.rWin);
  }

  /** Shown(m), one table entry at a time. */
  lemma ShownUnfold(m: Modifiers)
    ensures Shown(m) == (if m.apps then [AppsSuffix] else []) + (if m.control then [CtrlSuffix] else [])
                      + (if m.shift then [ShiftSuffix] else []) + (if m.lWin || m.rWin then [MetaSuffix] else [])
  {
    var v := Visible(m);
    var a := if m.apps then [AppsSuffix] else [];
    var c := if m.control then [CtrlSuffix] else [];
    var s := if m.shift then [ShiftSuffix] else [];
    var w := if m.lWin || m.rWin then [MetaSuffix] else [];
    VisibleMembers(m);
    FilterCons(MetaSuffix, [], v);
    FilterCons(ShiftSuffix, [MetaSuffix], v);
    FilterCons(CtrlSuffix, [ShiftSuffix, MetaSuffix], v);
    FilterCons(AppsSuffix, [CtrlSuffix, ShiftSuffix, MetaSuffix], v);
    assert Filter([MetaSuffix], v) == w;
    assert Filter([ShiftSuffix, MetaSuffix], v) == s + w;
    assert Filter([CtrlSuffix, ShiftSuffix, MetaSuffix], v) == c + (s + w);
    assert Filter(SuffixOrder, v) == a + (c + (s + w));
    Associative(a, c, s + w);
    Associative(a + c, s, w);
  }


  lemma ConcatSingle(x: Suffix)
    ensures Concat([x]) == Tag(x)
  {
    assert [x][1..] == [];
    assert FlatMap(Tag, [x]) == Tag(x) + FlatMap(Tag, []);
  }

  /** The command the handler builds is the reference description: prefix, name, shown tags. */
  lemma BuildCommandIsReference(name: string, m: Modifiers)
    ensures BuildCommand(name, m) == Prefix + name + Concat(Shown(m))
  {
    var a := if m.apps then [AppsSuffix] else [];
    var c := if m.control then [CtrlSuffix] else [];
    var s := if m.shift then [ShiftSuffix] else [];
    var w := if m.lWin || m.rWin then [MetaSuffix] else [];
    var ta := if m.apps then "_apps" else "";
    var tc := if m.control then "_ctrl" else "";
    var ts := if m.shift then "_shift" else "";
    var tw := if m.lWin || m.rWin then "_meta" else "";
    ConcatSingle(AppsSuffix);
    ConcatSingle(CtrlSuffix);
    ConcatSingle(ShiftSuffix);
    ConcatSingle(MetaSuffix);
    assert Concat(a) == ta && Concat(c) == tc && Concat(s) == ts && Concat(w) == tw;
    ShownUnfold(m);
    FlatMapAppend(Tag, a + c + s, w);
    FlatMapAppend(Tag, a + c, s);
    FlatMapAppend(Tag, a, c);
    assert Concat(Shown(m)) == ta + tc + ts + tw;
    var head := Prefix + name;
    Associative(head, ta + tc + ts, tw);
    Associative(head, ta + tc, ts);
    Associative(head, ta, tc);
  }

  /** Different tags differ in their second character. */
  lemma TagsDiffer(a: Suffix, b: Suffix)
    requires a != b
    ensures |Tag(a)| >= 2 && |Tag(b)| >= 2 && Tag(a)[1] != Tag(b)[1]
  {
  }

  /** No tag is a prefix of a run of tags that does not contain it. */
  lemma NotPrefix(a: Suffix, rest: seq<Suffix>)
    requires a !in rest
    ensures !(Tag(a) <= Concat(rest))
  {
    if rest != [] {
      var t := Concat(rest);
      assert t == Tag(rest[0]) + Concat(rest[1..]);
      TagsDiffer(a, rest[0]);
      assert t[1] == Tag(rest[0])[1];
    }
  }

  /** Parsing the tags of the suffixes in `on` gives those suffixes back. */
  lemma {:induction false} ParseConcat(order: seq<Suffix>, on: set<Suffix>)
    requires Increasing(order)
    ensures ParseSuffixes(Concat(Filter(order, on)), order) == Some(Filter(order, on))
    decreases |order|
  {
    if order != [] {
      assert Increasing(order[1..]);
      ParseConcat(order[1..], on);
      var rest := Filter(order[1..], on);
      var tag := Tag(order[0]);
      if order[0] in on {
        assert Filter(order, on) == [order[0]] + rest;
        var t := Concat([order[0]] + rest);
        assert ([order[0]] + rest)[1..] == rest;
        assert t == tag + Concat(rest);
        assert tag <= t && t[|tag|..] == Concat(rest);
      } else {
        assert Filter(order, on) == rest;
        assert order[0] !in order[1..];
        NotPrefix(order[0], rest);
      }
    }
  }

  /**
   * Two flag states yield the same command for a key exactly when they make
   * the same suffixes visible: Alt is invisible, the Windows keys are merged,
   * and every other difference shows in the command.
   */
  lemma SameCommandIffSameVisible(name: string, m1: Modifiers, m2: Modifiers)
    ensures BuildCommand(name, m1) == BuildCommand(name, m2) <==> Visible(m1) == Visible(m2)
  {
    if BuildCommand(name, m1) == BuildCommand(name, m2) {
      CommandDeterminesVisible(name, m1, m2);
    } else {
      BuildCommandIsReference(name, m1);
      BuildCommandIsReference(name, m2);
    }
  }

  /** The command can be read back: it fixes which suffixes were visible. */
  lemma CommandDeterminesVisible(name: string, m1: Modifiers, m2: Modifiers)
    requires BuildCommand(name, m1) == BuildCommand(name, m2)
    ensures Visible(m1) == Visible(m2)
  {
    BuildCommandIsReference(name, m1);
    BuildCommandIsReference(name, m2);
    Cancel(Prefix + name, Concat(Shown(m1)), Concat(Shown(m2)));
    TagsDetermineShown(m1, m2);
    ShownDeterminesVisible(m1, m2);
  }

  /** The tags of the shown suffixes fix the shown suffixes. */
  lemma TagsDetermineShown(m1: Modifiers, m2: Modifiers)
    requires Concat(Shown(m1)) == Concat(Shown(m2))
    ensures Shown(m1) == Shown(m2)
  {
    SuffixOrderComplete();
    ParseConcat(SuffixOrder, Visible(m1));
    ParseConcat(SuffixOrder, Visible(m2));
  }

  lemma ShownDeterminesVisible(m1: Modifiers, m2: Modifiers)
    requires Shown(m1) == Shown(m2)
    ensures Visible(m1) == Visible(m2)
  {
    assert forall s :: s in Visible(m1) <==> s in Visible(m2);
  }

  /** The Alt flag never affects the command. */
  lemma AltNeverShown(name: string, m: Modifiers, alt: bool)
    ensures BuildCommand(name, m.(alt := alt)) == BuildCommand(name, m)
  {
  }

  /** Left and right Windows keys are indistinguishable, and both down still give a single "_meta". */
  lemma MetaMerged(name: string, m: Modifiers)
    requires m.lWin || m.rWin
    ensures BuildCommand(name, m) == BuildCommand(name, m.(lWin := true, rWin := false))
    ensures multiset(Shown(m))[MetaSuffix] == 1
  {
    ShownUnfold(m);
  }

  /** Shift, Control and Alt down, nothing else: the command is "/onkey_<name>_ctrl_shift". */
  lemma CtrlShiftAltExample(name: string)
    ensures BuildCommand(name, Modifiers(true, false, false, false, true, true)) == "/onkey_" + name + "_ctrl_shift"
  {
  }

  /** The suffix a modifier drives, if any. */
  function SuffixOf(k: Modifier): Option<Suffix> {
    match k
    case Apps => Some(AppsSuffix)
    case Control => Some(CtrlSuffix)
    case Shift => Some(ShiftSuffix)
    case LWin => Some(MetaSuffix)
    case RWin => Some(MetaSuffix)
    case Alt => None
  }

  /**
   * Once Apps, Control or Shift has been released, no later event for another
   * key brings its suffix back. The Windows keys are left out here because they
   * share "_meta": see WinReleaseKeepsMetaIffOtherHeld.
   */
  lemma ReleasedModifierNotShown(m: Modifiers, k: Modifier, repeat: bool, e: KeyEvent)
    requires k in {Apps, Control, Shift}
    requires e.vkCode != VkOf(k)
    ensures SuffixOf(k).Some?
    ensures SuffixOf(k).value !in Visible(Step(Step(m, KeyEvent(VkOf(k), repeat, true)), e))
  {
    var m1 := Step(m, KeyEvent(VkOf(k), repeat, true));
    assert !m1.Held(k);
    assert !Step(m1, e).Held(k);
  }

  /**
   * Releasing one Windows key leaves "_meta" visible exactly when the other
   * Windows key is still held.
   */
  lemma WinReleaseKeepsMetaIffOtherHeld(m: Modifiers, k: Modifier, repeat: bool)
    requires k in {LWin, RWin}
    ensures var other := if k == LWin then RWin else LWin;
      MetaSuffix in Visible(Step(m, KeyEvent(VkOf(k), repeat, true))) <==> m.Held(other)
  {
    var other := if k == LWin then RWin else LWin;
    var m1 := Step(m, KeyEvent(VkOf(k), repeat, true));
    assert !m1.Held(k);
    assert m1.Held(other) == m.Held(other);
    assert Shows(m1, MetaSuffix) == (m1.lWin || m1.rWin);
  }
}
