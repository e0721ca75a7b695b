/**
 * The "Keys" section of the configuration as the plugin reads it: a buffer of
 * key names separated by '\n', split the way repeated
 * `std::getline(stream, token, '\n')` calls split it, and the set of names
 * whose configured boolean is true.
 */
module KeyConfig {
  import opened SeqFacts

  /** The position of the first '\n' in `s` at or after `i`, or |s| when there is none. */
  function NewlineFrom(s: string, i: nat): (k: nat)
    requires i <= |s|
    ensures i <= k <= |s|
    ensures k < |s| ==> s[k] == '\n'
    decreases |s| - i
  {
    if i == |s| || s[i] == '\n' then i else NewlineFrom(s, i + 1)
  }

  /** The position of the first '\n' in `s`, or |s| when there is none. */
  function NewlineIndex(s: string): (k: nat)
    ensures k <= |s|
    ensures k < |s| ==> s[k] == '\n'
  {
    NewlineFrom(s, 0)
  }

  /** No '\n' lies between `i` and NewlineFrom(s, i). */
  lemma {:induction false} NewlineFromFirst(s: string, i: nat)
    requires i <= |s|
    ensures forall j :: i <= j < NewlineFrom(s, i) ==> s[j] != '\n'
    decreases |s| - i
  {
    if i < |s| && s[i] != '\n' {
      NewlineFromFirst(s, i + 1);
    }
  }

  /** No '\n' comes before NewlineIndex(s). */
  lemma NewlineIndexFirst(s: string)
    ensures '\n' !in s[..NewlineIndex(s)]
  {
    NewlineFromFirst(s, 0);
  }

  /** A position after `i` with no '\n' between, at a '\n' or at the end, is NewlineFrom(s, i). */
  lemma {:induction false} NewlineFromUnique(s: string, i: nat, k: nat)
    requires i <= k <= |s|
    requires k < |s| ==> s[k] == '\n'
    requires forall j :: i <= j < k ==> s[j] != '\n'
    ensures NewlineFrom(s, i) == k
    decreases k - i
  {
    if i < k {
      NewlineFromUnique(s, i + 1, k);
    }
  }

  /**
   * The tokens getline extracts, in order. Each call takes the characters up
   * to the next '\n' and consumes that '\n'; a call that finds the stream
   * already at its end fails. So empty tokens between two '\n' are kept, and
   * a final '\n' does not produce an empty last token.
   */
  function Lines(s: string): (r: seq<string>)
    decreases |s|
  {
    if s == [] then []
    else
      var k := NewlineIndex(s);
      [s[..k]] + (if k == |s| then [] else Lines(s[k + 1..]))
  }

  /** No token getline yields contains the delimiter. */
  lemma {:induction false} LinesNoNewline(s: string)
    ensures forall t :: t in Lines(s) ==> '\n' !in t
    decreases |s|
  {
    if s != [] {
      var k := NewlineIndex(s);
      NewlineIndexFirst(s);
      LinesUnfold(s, k);
      if k < |s| {
        LinesNoNewline(s[k + 1..]);
      }
    }
  }

  /** Tokens written one per line, without a trailing '\n'. */
  function Join(tokens: seq<string>): string
    decreases |tokens|
  {
    if tokens == [] then ""
    else if |tokens| == 1 then tokens[0]
    else tokens[0] + "\n" + Join(tokens[1..])
  }

  /** The names among `tokens` whose configured boolean is true. */
  function Enabled(tokens: seq<string>, configured: string -> bool): set<string> {
    set t | t in tokens && configured(t)
  }

  /** Any position that has the three properties of NewlineIndex is NewlineIndex. */
  lemma NewlineIndexUnique(s: string, k: nat)
    requires k <= |s|
    requires k < |s| ==> s[k] == '\n'
    requires '\n' !in s[..k]
    ensures NewlineIndex(s) == k
  {
    assert forall j :: 0 <= j < k ==> s[j] == s[..k][j];
    NewlineFromUnique(s, 0, k);
  }

  /** Splitting the rest of a buffer at `pos`: the first token runs to `end`, the next starts after its '\n'. */
  lemma LinesFrom(s: string, pos: nat, end: nat)
    requires pos < |s| && pos <= end <= |s|
    requires end < |s| ==> s[end] == '\n'
    requires forall i :: pos <= i < end ==> s[i] != '\n'
    ensures Lines(s[pos..]) == [s[pos..end]] + Lines(s[if end < |s| then end + 1 else end..])
  {
    var t := s[pos..];
    NewlineIndexUnique(t, end - pos);
    assert t[..end - pos] == s[pos..end];
    if end < |s| {
      assert t[end - pos + 1..] == s[end + 1..];
    } else {
      assert s[end..] == [];
    }
  }

  /** A token free of '\n', then '\n', then anything: getline yields the token first. */
  lemma LinesAfterToken(t: string, r: string)
    requires '\n' !in t
    ensures Lines(t + "\n" + r) == [t] + Lines(r)
  {
    var s := t + "\n" + r;
    NewlineIndexUnique(s, |t|);
    assert s[..|t|] == t;
    assert s[|t| + 1..] == r;
  }

  /** A last token that is non-empty and free of '\n' is yielded whole. */
  lemma LinesOfToken(t: string)
    requires t != "" && '\n' !in t
    ensures Lines(t) == [t]
  {
    NewlineIndexUnique(t, |t|);
    assert t[..|t|] == t;
  }

  /** Splitting what Join wrote gives the tokens back, unless the last one is empty (getline never yields it). */
  lemma {:induction false} LinesJoin(tokens: seq<string>)
    requires forall t :: t in tokens ==> '\n' !in t
    requires tokens == [] || tokens[|tokens| - 1] != ""
    ensures Lines(Join(tokens)) == tokens
    decreases |tokens|
  {
    if |tokens| == 1 {
      LinesOfToken(tokens[0]);
    } else if |tokens| > 1 {
      var rest := tokens[1..];
      assert rest[|rest| - 1] == tokens[|tokens| - 1];
      assert forall t :: t in rest ==> t in tokens;
      LinesJoin(rest);
      assert tokens == [tokens[0]] + rest;
      JoinCons(tokens[0], rest);
      LinesAfterToken(tokens[0], Join(rest));
    }
  }

  /** Joining the tokens of a buffer gives the buffer back, less a final '\n'. */
  lemma {:induction false} JoinLines(s: string)
    ensures if s != [] && s[|s| - 1] == '\n' then Join(Lines(s)) + "\n" == s else Join(Lines(s)) == s
    decreases |s|
  {
    if s != [] {
      var k := NewlineIndex(s);
      if k == |s| {
        NewlineIndexFirst(s);
        assert s[..k] == s;
      } else if k + 1 == |s| {
        JoinLinesLastNewline(s);
      } else {
        JoinLines(s[k + 1..]);
        JoinLinesStep(s, k);
      }
    }
  }

  /** A buffer whose only '\n' is its last character holds one token. */
  lemma JoinLinesLastNewline(s: string)
    requires s != [] && NewlineIndex(s) == |s| - 1
    ensures Join(Lines(s)) + "\n" == s
  {
    var t := s[..|s| - 1];
    LinesLastToken(s);
    JoinSingle(t);
    assert s == t + [s[|s| - 1]];
  }

  /** The only token of a buffer whose first '\n' is its last character. */
  lemma LinesLastToken(s: string)
    requires s != [] && NewlineIndex(s) == |s| - 1
    ensures Lines(s) == [s[..|s| - 1]]
  {
    var k := |s| - 1;
    LinesUnfold(s, k);
    assert s[k + 1..] == [];
  }

  lemma JoinSingle(t: string)
    ensures Join([t]) == t
  {
  }

  /** The inductive step of JoinLines: a first token, its '\n', and a non-empty rest already known to round-trip. */
  lemma JoinLinesStep(s: string, k: nat)
    requires k + 1 < |s| && k == NewlineIndex(s)
    requires var rest := s[k + 1..];
      if rest[|rest| - 1] == '\n' then Join(Lines(rest)) + "\n" == rest else Join(Lines(rest)) == rest
    ensures if s[|s| - 1] == '\n' then Join(Lines(s)) + "\n" == s else Join(Lines(s)) == s
  {
    var head := s[..k] + "\n";
    var rest := s[k + 1..];
    assert rest[|rest| - 1] == s[|s| - 1];
    SplitAtNewline(s, k);
    JoinLinesOfSplit(s, k);
    Associative(head, Join(Lines(rest)), "\n");
  }

  /** A buffer is its first token, the '\n' after it, and the rest. */
  lemma SplitAtNewline(s: string, k: nat)
    requires k < |s| && s[k] == '\n'
    ensures s == s[..k] + "\n" + s[k + 1..]
  {
    assert s[k..] == "\n" + s[k + 1..];
    assert s == s[..k] + s[k..];
    Associative(s[..k], "\n", s[k + 1..]);
  }

  /** Joined again, the tokens of such a buffer are its first token, '\n', and the joined tokens of the rest. */
  lemma JoinLinesOfSplit(s: string, k: nat)
    requires k + 1 < |s| && k == NewlineIndex(s)
    ensures Join(Lines(s)) == s[..k] + "\n" + Join(Lines(s[k + 1..]))
  {
    LinesOfSplit(s, k);
    JoinCons(s[..k], Lines(s[k + 1..]));
  }

  /** getline yields the first token, then the tokens of what follows its '\n', of which there is at least one. */
  lemma LinesOfSplit(s: string, k: nat)
    requires k + 1 < |s| && k == NewlineIndex(s)
    ensures Lines(s) == [s[..k]] + Lines(s[k + 1..])
    ensures Lines(s[k + 1..]) != []
  {
    LinesUnfold(s, k);
    LinesNonEmpty(s[k + 1..]);
  }

  /** One unfolding of Lines on a non-empty buffer whose first '\n' is at `k`. */
  lemma LinesUnfold(s: string, k: nat)
    requires s != [] && k == NewlineIndex(s)
    ensures Lines(s) == [s[..k]] + (if k == |s| then [] else Lines(s[k + 1..]))
  {
  }

  lemma LinesNonEmpty(s: string)
    requires s != []
    ensures Lines(s) != []
  {
  }

  lemma JoinCons(t: string, rest: seq<string>)
    requires rest != []
    ensures Join([t] + rest) == t + "\n" + Join(rest)
  {
    assert ([t] + rest)[1..] == rest;
  }

  /** Scans from `pos` for the '\n' that ends the current token, as getline does. */
  method FindNewline(s: string, pos: nat) returns (end: nat)
    requires pos <= |s|
    ensures pos <= end <= |s|
    ensures end < |s| ==> s[end] == '\n'
    ensures forall i :: pos <= i < end ==> s[i] != '\n'
  {
    end := pos;
    while end < |s| && s[end] != '\n'
      invariant pos <= end <= |s|
      invariant forall i :: pos <= i < end ==> s[i] != '\n'
    {
      end := end + 1;
    }
  }

  /** Enabling the tokens one at a time builds the same set. */
  lemma EnabledCons(token: string, rest: seq<string>, configured: string -> bool)
    ensures Enabled([token] + rest, configured)
         == (if configured(token) then {token} else {}) + Enabled(rest, configured)
  {
  }

  /** One getline step of the loading loop: the token up to `end` is enabled or not, the rest follows. */
  lemma EnabledFrom(s: string, pos: nat, end: nat, configured: string -> bool)
    requires pos < |s| && pos <= end <= |s|
    requires end < |s| ==> s[end] == '\n'
    requires forall i :: pos <= i < end ==> s[i] != '\n'
    ensures var rest := Lines(s[if end < |s| then end + 1 else end..]);
      Enabled(Lines(s[pos..]), configured)
      == (if configured(s[pos..end]) then {s[pos..end]} else {}) + Enabled(rest, configured)
  {
    LinesFrom(s, pos, end);
    EnabledCons(s[pos..end], Lines(s[if end < |s| then end + 1 else end..]), configured);
  }

  /** The four keys written to a configuration created on first run, all configured false. */
  const DefaultKeys: seq<string> := ["VK_F13", "VK_F14", "VK_F15", "VK_F16"]

  /** Reading back the default configuration enables no key. */
  lemma DefaultConfigEnablesNothing(configured: string -> bool)
    requires forall t :: t in DefaultKeys ==> !configured(t)
    ensures Lines(Join(DefaultKeys)) == DefaultKeys
    ensures Enabled(Lines(Join(DefaultKeys)), configured) == {}
  {
    LinesJoin(DefaultKeys);
  }
}
