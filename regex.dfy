/**
 * The subset of Python's `re` that the ledger catalog uses: case-insensitive
 * literals, greedy repetition of a character class, greedy optional groups,
 * two-way alternation, named and unnamed capture groups and the `$` anchor.
 *
 * Matching follows the backtracking order of Python's engine: `MatchSeq`
 * lists every way a pattern can match at a position, in the order the
 * engine would try them, and `re.match` returns the first one.
 */
module Regex {
  import opened Wrappers
  import Ascii

  /** Character classes appearing in the catalog (ASCII reading of `\w`, `\d`). */
  datatype CharClass =
    | Word            // \w
    | Digit           // \d
    | AnyButNewline   // .
    | DigitOrExponent // [\de-], which under IGNORECASE also admits 'E'
    | WordOrColon     // [\w:\d]

  predicate IsDigit(c: char) {
    '0' <= c <= '9'
  }

  predicate IsWordChar(c: char) {
    'a' <= c <= 'z' || 'A' <= c <= 'Z' || IsDigit(c) || c == '_'
  }

  predicate InClass(c: char, k: CharClass) {
    match k
    case Word => IsWordChar(c)
    case Digit => IsDigit(c)
    case AnyButNewline => c != '\n'
    case DigitOrExponent => IsDigit(c) || c == 'e' || c == 'E' || c == '-'
    case WordOrColon => IsWordChar(c) || c == ':'
  }

  datatype Node =
    | Lit(text: string)                              // literal text, compared ignoring case
    | Rep(cls: CharClass, min: nat, max: Option<nat>) // greedy cls{min,max}
    | Opt(body: seq<Node>)                           // greedy (?:body)?
    | Alt(left: seq<Node>, right: seq<Node>)         // left|right
    | Group(name: Option<string>, body: seq<Node>)   // (?P<name>body) or (body)
    | End                                            // $

  type Pattern = seq<Node>

  /** What `groupdict()` reports: named group to captured text, `None` if it did not take part. */
  type Captures = map<string, Option<string>>

  /** One way of matching: where it stopped and the groups it captured on the way. */
  datatype Outcome = Outcome(pos: nat, caps: Captures)

  function NodeSize(n: Node): nat {
    match n
    case Opt(body) => 1 + PatternSize(body)
    case Alt(left, right) => 1 + PatternSize(left) + PatternSize(right)
    case Group(_, body) => 1 + PatternSize(body)
    case _ => 1
  }

  function PatternSize(p: Pattern): nat {
    if p == [] then 0 else NodeSize(p[0]) + PatternSize(p[1..])
  }

  /** The named groups a node declares, however deeply nested. */
  function NodeGroups(n: Node): set<string> {
    match n
    case Opt(body) => PatternGroups(body)
    case Alt(left, right) => PatternGroups(left) + PatternGroups(right)
    case Group(name, body) =>
      (if name.Some? then {name.value} else {}) + PatternGroups(body)
    case _ => {}
  }

  function PatternGroups(p: Pattern): set<string> {
    if p == [] then {} else NodeGroups(p[0]) + PatternGroups(p[1..])
  }

  /** Two strings are equal once ASCII letters are folded to lower case. */
  predicate FoldEq(a: string, b: string) {
    |a| == |b| && forall k :: 0 <= k < |a| ==> Ascii.Lower(a[k]) == Ascii.Lower(b[k])
  }

  /** Length of the longest run of `cls` characters starting at `i`, capped by `max`. */
  function RunLength(s: string, i: nat, cls: CharClass, max: Option<nat>): (n: nat)
    requires i <= |s|
    ensures i + n <= |s|
    ensures forall k :: i <= k < i + n ==> InClass(s[k], cls)
    ensures max.Some? ==> n <= max.value
    ensures i + n == |s| || !InClass(s[i + n], cls) || (max.Some? && n == max.value)
    decreases |s| - i
  {
    if i == |s| || !InClass(s[i], cls) || max == Some(0) then 0
    else 1 + RunLength(s, i + 1, cls, if max.Some? then Some(max.value - 1) else None)
  }

  /** The end positions a greedy repeat backs off through: longest first, down to `min`. */
  function Backoff(i: nat, run: nat, min: nat, caps: Captures): (r: seq<Outcome>)
    requires min <= run
    ensures |r| == run - min + 1
    ensures r[0].pos == i + run && r[|r| - 1].pos == i + min
    ensures forall k :: 0 < k < |r| ==> r[k].pos + 1 == r[k - 1].pos
    ensures forall k :: 0 <= k < |r| ==> r[k].caps == caps
  {
    seq(run - min + 1, k requires 0 <= k <= run - min => Outcome(i + run - k, caps))
  }

  /** Every outcome ends inside `[i, len]` and only adds keys drawn from `groups`. */
  ghost predicate Spans(r: seq<Outcome>, i: nat, len: nat, keys: set<string>, groups: set<string>) {
    forall k :: 0 <= k < |r| ==> i <= r[k].pos <= len && keys <= r[k].caps.Keys <= keys + groups
  }

  /** Records the text from `i` to each outcome's end under `name`. */
  function Capture(outs: seq<Outcome>, name: string, s: string, i: nat): (r: seq<Outcome>)
    requires forall k :: 0 <= k < |outs| ==> i <= outs[k].pos <= |s|
    ensures |r| == |outs|
    ensures forall k :: 0 <= k < |r| ==>
      r[k] == Outcome(outs[k].pos, outs[k].caps[name := Some(s[i..outs[k].pos])])
  {
    if outs == [] then []
    else
      [Outcome(outs[0].pos, outs[0].caps[name := Some(s[i..outs[0].pos])])]
      + Capture(outs[1..], name, s, i)
  }

  /** All ways node `n` matches `s` at position `i`, in backtracking order. */
  function MatchNode(n: Node, s: string, i: nat, caps: Captures): (r: seq<Outcome>)
    requires i <= |s|
    ensures Spans(r, i, |s|, caps.Keys, NodeGroups(n))
    decreases NodeSize(n), 0, 0
  {
    match n
    case Lit(t) => MatchLit(t, s, i, caps)
    case Rep(cls, min, max) => MatchRep(cls, min, max, s, i, caps)
    case Opt(body) =>
      MatchSeq(body, s, i, caps) + [Outcome(i, caps)]
    case Alt(left, right) =>
      MatchSeq(left, s, i, caps) + MatchSeq(right, s, i, caps)
    case Group(name, body) =>
      var inner := MatchSeq(body, s, i, caps);
      if name.None? then inner else Capture(inner, name.value, s, i)
    case End => MatchEnd(s, i, caps)
  }

  /** A literal: one outcome just after it where the text agrees up to case, none otherwise. */
  function MatchLit(t: string, s: string, i: nat, caps: Captures): (r: seq<Outcome>)
    requires i <= |s|
    ensures |r| <= 1
    ensures forall k :: 0 <= k < |r| ==> r[k].pos == i + |t| && r[k].caps == caps
    ensures Spans(r, i, |s|, caps.Keys, {})
  {
    if i + |t| <= |s| && FoldEq(s[i..i + |t|], t) then [Outcome(i + |t|, caps)] else []
  }

  /** A greedy repeat: every end from the maximal run back to `min`, or nothing if the run is too short. */
  function MatchRep(cls: CharClass, min: nat, max: Option<nat>, s: string, i: nat, caps: Captures): (r: seq<Outcome>)
    requires i <= |s|
    ensures Spans(r, i, |s|, caps.Keys, {})
    ensures forall k :: 0 <= k < |r| ==> forall j :: i <= j < r[k].pos ==> InClass(s[j], cls)
  {
    var run := RunLength(s, i, cls, max);
    if run < min then [] else Backoff(i, run, min, caps)
  }

  /** `$`: at the end of the text, or just before a final newline. */
  function MatchEnd(s: string, i: nat, caps: Captures): (r: seq<Outcome>)
    requires i <= |s|
    ensures |r| <= 1
    ensures forall k :: 0 <= k < |r| ==> r[k].caps == caps && r[k].pos == i
    ensures r != [] ==> i == |s| || i == |s| - 1
  {
    if i == |s| || (i + 1 == |s| && s[i] == '\n') then [Outcome(i, caps)] else []
  }

  /** All ways pattern `p` matches `s` at position `i`, in backtracking order. */
  function MatchSeq(p: Pattern, s: string, i: nat, caps: Captures): (r: seq<Outcome>)
    requires i <= |s|
    ensures Spans(r, i, |s|, caps.Keys, PatternGroups(p))
    decreases PatternSize(p), 1, 0
  {
    if p == [] then [Outcome(i, caps)]
    else Continue(MatchNode(p[0], s, i, caps), p[1..], s, i, caps.Keys, NodeGroups(p[0]))
  }

  /** Tries `rest` after each outcome of the first node, keeping the order. */
  function Continue(firsts: seq<Outcome>, rest: Pattern, s: string,
                    ghost i: nat, ghost keys: set<string>, ghost groups: set<string>): (r: seq<Outcome>)
    requires Spans(firsts, i, |s|, keys, groups)
    ensures Spans(r, i, |s|, keys, groups + PatternGroups(rest))
    decreases PatternSize(rest), 2, |firsts|
  {
    if firsts == [] then []
    else
      MatchSeq(rest, s, firsts[0].pos, firsts[0].caps)
      + Continue(firsts[1..], rest, s, i, keys, groups)
  }

  /** Every named group of the pattern, none of them set yet. */
  function InitialCaptures(p: Pattern): (c: Captures)
    ensures c.Keys == PatternGroups(p)
    ensures forall g :: g in c ==> c[g] == None
  {
    map g | g in PatternGroups(p) :: None
  }

  /**
   * `re.match(p, s)`: the captures of the first successful way of matching
   * from position 0, or `None`. The keys of a match are exactly the
   * pattern's named groups; unnamed groups never appear.
   */
  function Match(p: Pattern, s: string): (r: Option<Captures>)
    ensures r.Some? ==> r.value.Keys == PatternGroups(p)
  {
    var outs := MatchSeq(p, s, 0, InitialCaptures(p));
    if outs == [] then None else Some(outs[0].caps)
  }

  // Evaluation steps used to compute the first outcome of concrete patterns.

  /** A literal matches exactly where the text agrees with it up to case. */
  lemma LitStep(t: string, s: string, i: nat, caps: Captures)
    requires i + |t| <= |s| && FoldEq(s[i..i + |t|], t)
    ensures MatchNode(Lit(t), s, i, caps) == [Outcome(i + |t|, caps)]
  {
  }

  /** A literal fails where one character differs from it even after folding. */
  lemma LitMismatch(t: string, s: string, i: nat, k: nat, caps: Captures)
    requires i <= |s| && k < |t| && i + k < |s|
    requires Ascii.Lower(s[i + k]) != Ascii.Lower(t[k])
    ensures MatchNode(Lit(t), s, i, caps) == []
  {
    if i + |t| <= |s| {
      assert s[i..i + |t|][k] == s[i + k];
    }
  }

  /** A greedy `cls+` first tries the whole maximal run. */
  lemma RunStep(cls: CharClass, s: string, i: nat, n: nat, caps: Captures)
    requires 1 <= n && i + n <= |s|
    requires forall k :: i <= k < i + n ==> InClass(s[k], cls)
    requires i + n == |s| || !InClass(s[i + n], cls)
    ensures MatchNode(Rep(cls, 1, None), s, i, caps) != []
    ensures MatchNode(Rep(cls, 1, None), s, i, caps)[0] == Outcome(i + n, caps)
  {
    assert RunLength(s, i, cls, None) == n;
  }

  /** A named group reports the text its body's first outcome spans. */
  lemma NamedGroupStep(name: string, body: Pattern, s: string, i: nat, caps: Captures)
    requires i <= |s| && MatchSeq(body, s, i, caps) != []
    ensures var o := MatchSeq(body, s, i, caps)[0];
      var r := MatchNode(Group(Some(name), body), s, i, caps);
      r != [] && r[0] == Outcome(o.pos, o.caps[name := Some(s[i..o.pos])])
  {
  }

  /** Running no further nodes after each outcome leaves the outcomes as they are. */
  lemma {:induction false} ContinueWithNothing(firsts: seq<Outcome>, s: string, i: nat,
                                               keys: set<string>, groups: set<string>)
    requires Spans(firsts, i, |s|, keys, groups)
    ensures Continue(firsts, [], s, i, keys, groups) == firsts
  {
    if firsts != [] {
      ContinueWithNothing(firsts[1..], s, i, keys, groups);
    }
  }

  /** A one-node pattern matches as its node does. */
  lemma SingleNode(n: Node, s: string, i: nat, caps: Captures)
    requires i <= |s|
    ensures MatchSeq([n], s, i, caps) == MatchNode(n, s, i, caps)
  {
    assert [n][1..] == [];
    ContinueWithNothing(MatchNode(n, s, i, caps), s, i, caps.Keys, NodeGroups(n));
  }

  /**
   * When the first outcome of the head node lets the rest match, the first
   * outcome of the whole sequence is the rest's first outcome from there.
   */
  lemma SeqStep(p: Pattern, s: string, i: nat, caps: Captures)
    requires i <= |s| && p != [] && MatchNode(p[0], s, i, caps) != []
    requires var o := MatchNode(p[0], s, i, caps)[0];
      MatchSeq(p[1..], s, o.pos, o.caps) != []
    ensures var o := MatchNode(p[0], s, i, caps)[0];
      var r := MatchSeq(p, s, i, caps);
      r != [] && r[0] == MatchSeq(p[1..], s, o.pos, o.caps)[0]
  {
  }

  /** A sequence whose head node cannot match cannot match. */
  lemma SeqHeadFails(p: Pattern, s: string, i: nat, caps: Captures)
    requires i <= |s| && p != [] && MatchNode(p[0], s, i, caps) == []
    ensures MatchSeq(p, s, i, caps) == []
  {
  }

  /** An optional part whose body cannot match is skipped, and that is its only outcome. */
  lemma OptSkipped(body: Pattern, s: string, i: nat, caps: Captures)
    requires i <= |s| && MatchSeq(body, s, i, caps) == []
    ensures MatchNode(Opt(body), s, i, caps) == [Outcome(i, caps)]
  {
  }

  /** `$` accepts the end of the text. */
  lemma EndStep(s: string, caps: Captures)
    ensures MatchNode(End, s, |s|, caps) == [Outcome(|s|, caps)]
  {
  }

  /** `(?P<name>cls+)` first captures the whole maximal run of `cls` characters. */
  lemma NamedRunStep(name: string, cls: CharClass, s: string, i: nat, n: nat, caps: Captures)
    requires 1 <= n && i + n <= |s|
    requires forall k :: i <= k < i + n ==> InClass(s[k], cls)
    requires i + n == |s| || !InClass(s[i + n], cls)
    ensures var r := MatchNode(Group(Some(name), [Rep(cls, 1, None)]), s, i, caps);
      r != [] && r[0] == Outcome(i + n, caps[name := Some(s[i..i + n])])
  {
    RunStep(cls, s, i, n, caps);
    SingleNode(Rep(cls, 1, None), s, i, caps);
    NamedGroupStep(name, [Rep(cls, 1, None)], s, i, caps);
  }

  /** `SeqStep` for a pattern written as a head node followed by the rest. */
  lemma ConsStep(n: Node, rest: Pattern, s: string, i: nat, caps: Captures)
    requires i <= |s| && MatchNode(n, s, i, caps) != []
    requires var o := MatchNode(n, s, i, caps)[0]; MatchSeq(rest, s, o.pos, o.caps) != []
    ensures var o := MatchNode(n, s, i, caps)[0];
      var r := MatchSeq([n] + rest, s, i, caps);
      r != [] && r[0] == MatchSeq(rest, s, o.pos, o.caps)[0]
  {
    assert ([n] + rest)[0] == n && ([n] + rest)[1..] == rest;
    SeqStep([n] + rest, s, i, caps);
  }

  /** `ConsStep` with the head's first outcome named. */
  lemma HeadThen(n: Node, rest: Pattern, s: string, i: nat, caps: Captures, o: Outcome)
    requires i <= |s| && MatchNode(n, s, i, caps) != [] && MatchNode(n, s, i, caps)[0] == o
    requires MatchSeq(rest, s, o.pos, o.caps) != []
    ensures var r := MatchSeq([n] + rest, s, i, caps);
      r != [] && r[0] == MatchSeq(rest, s, o.pos, o.caps)[0]
  {
    ConsStep(n, rest, s, i, caps);
  }

  /** The named groups of a head node followed by the rest. */
  lemma GroupsCons(n: Node, rest: Pattern)
    ensures PatternGroups([n] + rest) == NodeGroups(n) + PatternGroups(rest)
  {
    assert ([n] + rest)[0] == n && ([n] + rest)[1..] == rest;
  }

  /** A literal head that matches hands over to the rest just after it. */
  lemma LitThen(t: string, rest: Pattern, s: string, i: nat, caps: Captures)
    requires i + |t| <= |s| && FoldEq(s[i..i + |t|], t)
    requires MatchSeq(rest, s, i + |t|, caps) != []
    ensures var r := MatchSeq([Lit(t)] + rest, s, i, caps);
      r != [] && r[0] == MatchSeq(rest, s, i + |t|, caps)[0]
  {
    LitStep(t, s, i, caps);
    ConsStep(Lit(t), rest, s, i, caps);
  }

  // Properties of the matcher as a whole.

  /** Literals that agree up to case match the same text in the same way. */
  lemma LitIgnoresCase(t: string, t': string, s: string, i: nat, caps: Captures)
    requires i <= |s| && FoldEq(t, t')
    ensures MatchLit(t, s, i, caps) == MatchLit(t', s, i, caps)
  {
    if i + |t| <= |s| {
      var w := s[i..i + |t|];
      assert FoldEq(w, t) <==> FoldEq(w, t') by {
        forall k | 0 <= k < |w|
          ensures Ascii.Lower(t[k]) == Ascii.Lower(t'[k])
        {
        }
      }
    }
  }

  /** Texts that agree up to case give a literal the same outcomes. */
  lemma LitTextIgnoresCase(t: string, s: string, s': string, i: nat, caps: Captures)
    requires i <= |s| && FoldEq(s, s')
    ensures MatchLit(t, s, i, caps) == MatchLit(t, s', i, caps)
  {
    if i + |t| <= |s| {
      var w, w' := s[i..i + |t|], s'[i..i + |t|];
      assert FoldEq(w, t) <==> FoldEq(w', t) by {
        forall k | 0 <= k < |w|
          ensures Ascii.Lower(w[k]) == Ascii.Lower(w'[k])
        {
          assert w[k] == s[i + k] && w'[k] == s'[i + k];
        }
      }
    }
  }

  /** `$` also accepts the position just before a final newline. */
  lemma EndBeforeNewline(s: string, caps: Captures)
    requires |s| > 0 && s[|s| - 1] == '\n'
    ensures MatchNode(End, s, |s| - 1, caps) == [Outcome(|s| - 1, caps)]
  {
  }

  /** An optional part always succeeds: its last outcome skips it and changes nothing. */
  lemma OptFallsBack(body: Pattern, s: string, i: nat, caps: Captures)
    requires i <= |s|
    ensures var r := MatchNode(Opt(body), s, i, caps);
      r != [] && r[|r| - 1] == Outcome(i, caps)
  {
  }

  /** Every outcome keeps the captures of `caps` outside `groups` as they were. */
  ghost predicate Keeps(r: seq<Outcome>, caps: Captures, groups: set<string>) {
    forall k, g :: 0 <= k < |r| && g in caps && g !in groups ==>
      g in r[k].caps && r[k].caps[g] == caps[g]
  }

  lemma KeepsAppend(a: seq<Outcome>, b: seq<Outcome>, caps: Captures, groups: set<string>)
    requires Keeps(a, caps, groups) && Keeps(b, caps, groups)
    ensures Keeps(a + b, caps, groups)
  {
    forall k, g | 0 <= k < |a + b| && g in caps && g !in groups
      ensures g in (a + b)[k].caps && (a + b)[k].caps[g] == caps[g]
    {
      if k < |a| {
        assert (a + b)[k] == a[k];
      } else {
        assert (a + b)[k] == b[k - |a|];
      }
    }
  }

  /** A node only ever sets its own named groups; every other capture passes through. */
  lemma NodeKeeps(n: Node, s: string, i: nat, caps: Captures)
    requires i <= |s|
    ensures Keeps(MatchNode(n, s, i, caps), caps, NodeGroups(n))
    decreases NodeSize(n), 0, 0
  {
    match n
    case Lit(_) =>
    case Rep(_, _, _) =>
    case End =>
    case Opt(body) =>
      SeqKeeps(body, s, i, caps);
      KeepsAppend(MatchSeq(body, s, i, caps), [Outcome(i, caps)], caps, NodeGroups(n));
    case Alt(left, right) =>
      SeqKeeps(left, s, i, caps);
      SeqKeeps(right, s, i, caps);
      KeepsAppend(MatchSeq(left, s, i, caps), MatchSeq(right, s, i, caps), caps, NodeGroups(n));
    case Group(name, body) =>
      SeqKeeps(body, s, i, caps);
  }

  /** A pattern only ever sets its own named groups. */
  lemma SeqKeeps(p: Pattern, s: string, i: nat, caps: Captures)
    requires i <= |s|
    ensures Keeps(MatchSeq(p, s, i, caps), caps, PatternGroups(p))
    decreases PatternSize(p), 1, 0
  {
    if p != [] {
      NodeKeeps(p[0], s, i, caps);
      ContinueKeeps(MatchNode(p[0], s, i, caps), p[1..], s, i, caps.Keys, NodeGroups(p[0]), caps);
    }
  }

  lemma {:induction false} ContinueKeeps(firsts: seq<Outcome>, rest: Pattern, s: string, i: nat,
                                         keys: set<string>, groups: set<string>, caps: Captures)
    requires Spans(firsts, i, |s|, keys, groups) && Keeps(firsts, caps, groups)
    ensures Keeps(Continue(firsts, rest, s, i, keys, groups), caps, groups + PatternGroups(rest))
    decreases PatternSize(rest), 2, |firsts|
  {
    if firsts != [] {
      var o := firsts[0];
      var head := MatchSeq(rest, s, o.pos, o.caps);
      SeqKeeps(rest, s, o.pos, o.caps);
      assert Keeps(head, caps, groups + PatternGroups(rest));
      ContinueKeeps(firsts[1..], rest, s, i, keys, groups, caps);
      KeepsAppend(head, Continue(firsts[1..], rest, s, i, keys, groups), caps,
                  groups + PatternGroups(rest));
    }
  }
}
