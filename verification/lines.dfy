/**
  The generated script as a list of lines, and the few facts about lines the
  other modules state their properties with: prefixes, single occurrences,
  and the `if ... end` block structure of the emitted Ruby.
 */
module Lines {
  import opened Schema

  const Newline: char := '\n'

  predicate StartsWith(l: string, p: string) {
    |p| <= |l| && l[..|p|] == p
  }

  // ---------------------------------------------------------------------------
  // Script text: every emitted line is followed by a newline
  // ---------------------------------------------------------------------------

  /** The script text: each line followed by "\n", as the scripter's `s`
      appends it to its buffer. */
  function Render(ls: seq<string>): (r: string)
    ensures |ls| > 0 ==> |r| > 0 && r[|r| - 1] == Newline
    decreases |ls|
  {
    if ls == [] then []
    else ls[0] + [Newline] + Render(ls[1..])
  }

  lemma {:induction false} RenderAppend(a: seq<string>, b: seq<string>)
    ensures Render(a + b) == Render(a) + Render(b)
    decreases |a|
  {
    if a != [] {
      assert (a + b)[1..] == a[1..] + b;
      RenderAppend(a[1..], b);
    } else {
      assert a + b == b;
    }
  }

  /** The text of the last line closes the rendering. */
  lemma {:induction false} RenderLast(ls: seq<string>)
    requires |ls| > 0
    ensures Render(ls) == Render(ls[..|ls| - 1]) + ls[|ls| - 1] + [Newline]
  {
    var init, last := ls[..|ls| - 1], ls[|ls| - 1];
    assert ls == init + [last];
    RenderAppend(init, [last]);
    assert Render([last]) == last + [Newline] + Render([]);
  }

  /** Index of the first newline of `r`, or `|r|` when there is none. */
  function NewlineIndex(r: string): (n: nat)
    ensures n <= |r|
    ensures forall i :: 0 <= i < n ==> r[i] != Newline
    ensures n < |r| ==> r[n] == Newline
    decreases |r|
  {
    if r == [] then 0
    else if r[0] == Newline then 0
    else 1 + NewlineIndex(r[1..])
  }

  /** Cuts script text back into its lines. */
  function SplitLines(r: string): seq<string>
    decreases |r|
  {
    if r == [] then []
    else
      var n := NewlineIndex(r);
      if n == |r| then [r] else [r[..n]] + SplitLines(r[n + 1..])
  }

  predicate SingleLine(l: string) {
    forall i :: 0 <= i < |l| ==> l[i] != Newline
  }

  lemma {:induction false} NewlineIndexAfter(a: string, b: string)
    requires SingleLine(a)
    ensures NewlineIndex(a + [Newline] + b) == |a|
    decreases |a|
  {
    if a != [] {
      assert (a + [Newline] + b)[1..] == a[1..] + [Newline] + b;
      NewlineIndexAfter(a[1..], b);
    }
  }

  /** When no emitted line holds a newline, the text determines the lines. */
  lemma {:induction false} SplitRender(ls: seq<string>)
    requires forall i :: 0 <= i < |ls| ==> SingleLine(ls[i])
    ensures SplitLines(Render(ls)) == ls
    decreases |ls|
  {
    if ls != [] {
      var r := Render(ls);
      var rest := Render(ls[1..]);
      assert r == ls[0] + [Newline] + rest;
      NewlineIndexAfter(ls[0], rest);
      assert r[..|ls[0]|] == ls[0];
      assert r[|ls[0]| + 1..] == rest;
      SplitRender(ls[1..]);
      assert ls == [ls[0]] + ls[1..];
    }
  }

  // ---------------------------------------------------------------------------
  // Occurrences
  // ---------------------------------------------------------------------------

  /** `x` is line `at` of `ls` and no other line. */
  predicate OccursOnlyAt(ls: seq<string>, x: string, at: int) {
    0 <= at < |ls| && ls[at] == x && forall i :: 0 <= i < |ls| && i != at ==> ls[i] != x
  }

  /** Lines of `ls` that start with `p`, in order. */
  function WithPrefix(ls: seq<string>, p: string): (r: seq<string>)
    ensures forall l :: l in r <==> l in ls && StartsWith(l, p)
    decreases |ls|
  {
    if ls == [] then []
    else (if StartsWith(ls[0], p) then [ls[0]] else []) + WithPrefix(ls[1..], p)
  }

  lemma {:induction false} WithPrefixAppend(a: seq<string>, b: seq<string>, p: string)
    ensures WithPrefix(a + b, p) == WithPrefix(a, p) + WithPrefix(b, p)
    decreases |a|
  {
    if a != [] {
      assert (a + b)[1..] == a[1..] + b;
      WithPrefixAppend(a[1..], b, p);
    } else {
      assert a + b == b;
    }
  }

  /** Only the middle run of `h + b + a` has lines starting with `p`. */
  lemma WithPrefixMiddle(r: seq<string>, h: seq<string>, b: seq<string>, a: seq<string>, p: string)
    requires r == h + b + a && WithPrefix(h, p) == [] && WithPrefix(a, p) == []
    ensures WithPrefix(r, p) == WithPrefix(b, p)
  {
    WithPrefixAppend(h, b, p);
    WithPrefixAppend(h + b, a, p);
  }

  lemma {:induction false} AllWithPrefix(ls: seq<string>, p: string)
    requires forall i :: 0 <= i < |ls| ==> StartsWith(ls[i], p)
    ensures WithPrefix(ls, p) == ls
    decreases |ls|
  {
    if ls != [] {
      AllWithPrefix(ls[1..], p);
    }
  }

  /** A single line with the prefix, between lines without it. */
  lemma WithPrefixOne(r: seq<string>, h: seq<string>, l: string, a: seq<string>, p: string)
    requires r == h + [l] + a && WithPrefix(h, p) == [] && WithPrefix(a, p) == []
    requires StartsWith(l, p)
    ensures WithPrefix(r, p) == [l]
  {
    WithPrefixMiddle(r, h, [l], a, p);
    assert [l][1..] == [];
  }

  lemma {:induction false} NoneWithPrefix(ls: seq<string>, p: string)
    requires forall i :: 0 <= i < |ls| ==> !StartsWith(ls[i], p)
    ensures WithPrefix(ls, p) == []
    decreases |ls|
  {
    if ls != [] {
      NoneWithPrefix(ls[1..], p);
    }
  }

  // ---------------------------------------------------------------------------
  // Block structure of the emitted Ruby: `if` opens a block, `end` closes it
  // ---------------------------------------------------------------------------

  /** The number of leading spaces of `l`. */
  function IndentWidth(l: string): (k: nat)
    ensures k <= |l|
    decreases |l|
  {
    if l != [] && l[0] == ' ' then 1 + IndentWidth(l[1..]) else 0
  }

  /** The line without its indentation. */
  function Unindent(l: string): string {
    l[IndentWidth(l)..]
  }

  /** Indented by exactly `k` spaces. */
  lemma {:induction false} IndentWidthAt(l: string, k: nat)
    requires k <= |l| && (forall i :: 0 <= i < k ==> l[i] == ' ') && (k < |l| ==> l[k] != ' ')
    ensures IndentWidth(l) == k
    decreases k
  {
    if k > 0 {
      IndentWidthAt(l[1..], k - 1);
    }
  }

  lemma UnindentAt(l: string, k: nat)
    requires k <= |l| && (forall i :: 0 <= i < k ==> l[i] == ' ') && (k < |l| ==> l[k] != ' ')
    ensures Unindent(l) == l[k..]
  {
    IndentWidthAt(l, k);
  }

  /** A Ruby line that opens a block: an `if` or a `def`. */
  predicate OpensBlock(l: string) {
    StartsWith(Unindent(l), "if ") || StartsWith(Unindent(l), "def ")
  }

  predicate ClosesBlock(l: string) {
    Unindent(l) == "end"
  }

  /** A line that neither opens nor closes a block. */
  predicate Plain(l: string) {
    !OpensBlock(l) && !ClosesBlock(l)
  }

  /** A line that starts another arm of the open `if`: an `elsif` or an `else`. */
  predicate Branch(l: string) {
    Unindent(l) == "else" || StartsWith(Unindent(l), "elsif ")
  }

  /** A line indented by `k` spaces whose first word does not begin with `e`
      starts no arm. */
  lemma NotBranchAt(l: string, k: nat)
    requires k < |l| && (forall i :: 0 <= i < k ==> l[i] == ' ') && l[k] != ' ' && l[k] != 'e'
    ensures !Branch(l)
  {
    UnindentAt(l, k);
    NotStartsWith(l[k..], "elsif ", 0);
  }

  lemma ElsifBranch(cond: string)
    ensures Branch("elsif " + cond)
  {
    var l := "elsif " + cond;
    UnindentAt(l, 0);
    assert l[..6] == "elsif ";
  }

  lemma StartsWithAt(l: string, p: string, i: nat)
    requires StartsWith(l, p) && i < |p|
    ensures l[i] == p[i]
  {
    assert l[..|p|][i] == l[i];
  }

  lemma StartsWithAppend(p: string, q: string)
    ensures StartsWith(p + q, p)
  {
    assert (p + q)[..|p|] == p;
  }

  lemma StartsWithExtend(l: string, p: string, q: string)
    requires StartsWith(l, p)
    ensures StartsWith(l + q, p)
  {
    assert (l + q)[..|p|] == l[..|p|];
  }

  lemma NotStartsWith(l: string, p: string, i: nat)
    requires i < |p| && (i >= |l| || l[i] != p[i])
    ensures !StartsWith(l, p)
  {
  }

  /** A line indented by `k` spaces whose first word is not `if`, `def` or `end`. */
  lemma PlainAt(l: string, k: nat)
    requires k < |l| && (forall i :: 0 <= i < k ==> l[i] == ' ') && l[k] != ' '
    requires l[k] != 'i' || k + 1 == |l| || l[k + 1] != 'f'
    requires l[k] != 'd' || k + 1 == |l| || l[k + 1] != 'e'
    requires l[k] != 'e' || |l| != k + 3 || l[k + 1] != 'n'
    ensures Plain(l)
  {
    UnindentAt(l, k);
    var u := l[k..];
    if l[k] == 'i' {
      NotStartsWith(u, "if ", 1);
    } else {
      NotStartsWith(u, "if ", 0);
    }
    if l[k] == 'd' {
      NotStartsWith(u, "def ", 1);
    } else {
      NotStartsWith(u, "def ", 0);
    }
  }

  // ---------------------------------------------------------------------------
  // Open blocks: which `if`/`def` lines enclose a point of the script
  // ---------------------------------------------------------------------------

  /** The stack of open block lines (their indices, outermost first) after
      reading line `l`, which has index `at`. */
  function Step(st: seq<int>, l: string, at: int): seq<int> {
    if OpensBlock(l) then st + [at]
    else if ClosesBlock(l) && st != [] then st[..|st| - 1]
    else st
  }

  /** The stack of open block lines after reading `ls` from stack `st`, the
      first line of `ls` having index `base`. */
  function Run(st: seq<int>, ls: seq<string>, base: int): seq<int>
    decreases |ls|
  {
    if ls == [] then st else Run(Step(st, ls[0], base), ls[1..], base + 1)
  }

  /** The blocks enclosing the point right after `ls`. */
  function OpenBlocks(ls: seq<string>): seq<int> {
    Run([], ls, 0)
  }

  lemma {:induction false} RunAppend(st: seq<int>, a: seq<string>, b: seq<string>, base: int)
    ensures Run(st, a + b, base) == Run(Run(st, a, base), b, base + |a|)
    decreases |a|
  {
    if a != [] {
      assert (a + b)[1..] == a[1..] + b;
      RunAppend(Step(st, a[0], base), a[1..], b, base + 1);
    } else {
      assert a + b == b;
    }
  }

  /** Reading plain lines leaves the open blocks as they were. */
  lemma {:induction false} RunPlain(st: seq<int>, ls: seq<string>, base: int)
    requires forall i :: 0 <= i < |ls| ==> Plain(ls[i])
    ensures Run(st, ls, base) == st
    decreases |ls|
  {
    if ls != [] {
      RunPlain(st, ls[1..], base + 1);
    }
  }

  function Delta(l: string): int {
    if OpensBlock(l) then 1 else if ClosesBlock(l) then -1 else 0
  }

  /** The depth change of every line. */
  function Deltas(ls: seq<string>): (ds: seq<int>)
    ensures |ds| == |ls|
    ensures forall i :: 0 <= i < |ls| ==> ds[i] == Delta(ls[i])
  {
    seq(|ls|, i requires 0 <= i < |ls| => Delta(ls[i]))
  }

  lemma DeltasAppend(a: seq<string>, b: seq<string>)
    ensures Deltas(a + b) == Deltas(a) + Deltas(b)
  {
  }

  function Min(a: int, b: int): int {
    if a <= b then a else b
  }

  function Sum(ds: seq<int>): int
    decreases |ds|
  {
    if ds == [] then 0 else ds[0] + Sum(ds[1..])
  }

  /** The lowest running total along `ds`, counting the empty prefix. */
  function Low(ds: seq<int>): (r: int)
    ensures r <= 0
    decreases |ds|
  {
    if ds == [] then 0 else Min(0, ds[0] + Low(ds[1..]))
  }

  /** A balanced block closes every block it opens and no other. */
  predicate Balanced(ls: seq<string>) {
    var ds := Deltas(ls); Sum(ds) == 0 && Low(ds) == 0
  }

  lemma {:induction false} SumAppend(a: seq<int>, b: seq<int>)
    ensures Sum(a + b) == Sum(a) + Sum(b)
    decreases |a|
  {
    if a == [] {
      assert a + b == b;
    } else {
      assert (a + b)[1..] == a[1..] + b;
      SumAppend(a[1..], b);
    }
  }

  lemma {:induction false} LowAppend(a: seq<int>, b: seq<int>)
    ensures Low(a + b) == Min(Low(a), Sum(a) + Low(b))
    decreases |a|
  {
    if a == [] {
      assert a + b == b;
    } else {
      assert (a + b)[1..] == a[1..] + b;
      LowAppend(a[1..], b);
    }
  }

  lemma {:induction false} LowBelowSum(ds: seq<int>)
    ensures Low(ds) <= Sum(ds)
    decreases |ds|
  {
    if ds != [] {
      LowBelowSum(ds[1..]);
    }
  }

  /** Reading `ls` never pops below the depth it starts at plus its low
      point, and ends as deep as its sum says. */
  lemma {:induction false} RunShape(st: seq<int>, ls: seq<string>, base: int)
    requires |st| + Low(Deltas(ls)) >= 0
    ensures Low(Deltas(ls)) <= Sum(Deltas(ls))
    ensures |Run(st, ls, base)| == |st| + Sum(Deltas(ls))
    ensures Run(st, ls, base)[..|st| + Low(Deltas(ls))] == st[..|st| + Low(Deltas(ls))]
    decreases |ls|
  {
    var ds := Deltas(ls);
    LowBelowSum(ds);
    if ls != [] {
      var next := Step(st, ls[0], base);
      var rest := ls[1..];
      assert Deltas(rest) == ds[1..];
      assert |next| == |st| + ds[0];
      RunShape(next, rest, base + 1);
      var j := |st| + Low(ds);
      var k := |next| + Low(ds[1..]);
      assert j <= k && j <= |st| && j <= |next|;
      assert next[..j] == st[..j];
      var r := Run(st, ls, base);
      assert r[..j] == r[..k][..j];
    }
  }

  /** A balanced block leaves the open blocks as it found them. */
  lemma BalancedRun(st: seq<int>, ls: seq<string>, base: int)
    requires Balanced(ls)
    ensures Run(st, ls, base) == st
  {
    RunShape(st, ls, base);
    assert st[..|st|] == st;
  }

  /** Balanced text in front changes nothing about what follows. */
  lemma BalancedPrefixRun(st: seq<int>, a: seq<string>, b: seq<string>, base: int)
    requires Balanced(a)
    ensures Run(st, a + b, base) == Run(st, b, base + |a|)
  {
    RunAppend(st, a, b, base);
    BalancedRun(st, a, base);
  }

  lemma BalancedPrefixBlocks(r: seq<string>, a: seq<string>, b: seq<string>)
    requires Balanced(a) && r == a + b
    ensures OpenBlocks(r) == Run([], b, |a|)
  {
    BalancedPrefixRun([], a, b, 0);
  }

  /** After balanced text no block is open. */
  lemma BalancedBlocks(r: seq<string>)
    requires Balanced(r)
    ensures OpenBlocks(r) == []
  {
    BalancedRun([], r, 0);
  }

  lemma BalancedAppend(a: seq<string>, b: seq<string>)
    requires Balanced(a) && Balanced(b)
    ensures Balanced(a + b)
  {
    DeltasAppend(a, b);
    SumAppend(Deltas(a), Deltas(b));
    LowAppend(Deltas(a), Deltas(b));
  }

  lemma {:induction false} BalancedPlain(ls: seq<string>)
    requires forall i :: 0 <= i < |ls| ==> Plain(ls[i])
    ensures Balanced(ls)
    decreases |ls|
  {
    if ls != [] {
      BalancedPlain(ls[1..]);
      assert Deltas(ls[1..]) == Deltas(ls)[1..];
    }
  }

  // ---------------------------------------------------------------------------
  // Vocabulary of the generated script
  // ---------------------------------------------------------------------------

  /** The abort gate that closes pre-validation. */
  const GateOpen: string := "if " + "(preErrors.length > 0)"

  /** The message collections the script declares. */
  datatype Collection = PreErrors | PreWarnings | PostErrors

  function CollectionName(c: Collection): string {
    match c
    case PreErrors => "preErrors"
    case PreWarnings => "preWarnings"
    case PostErrors => "postErrors"
  }

  /** A line that appends a message to collection `c`: directly (`c << msg`)
      or through the `compare` helper (`compare(c, ...)`). */
  predicate Records(l: string, c: Collection) {
    StartsWith(l, "    " + CollectionName(c) + " << ")
    || StartsWith(l, "    compare(" + CollectionName(c) + ", ")
  }

  lemma RecordsChars(l: string, c: Collection)
    requires Records(l, c)
    ensures var n := CollectionName(c);
      || (|l| > 7 && l[4] == 'p' && l[5] == n[1] && l[7] == n[3])
      || (|l| > 15 && l[4] == 'c' && l[13] == n[1] && l[15] == n[3])
  {
  }

  /** A line records into one collection at most. */
  lemma RecordsUnique(l: string, c: Collection, d: Collection)
    requires Records(l, c) && Records(l, d)
    ensures c == d
  {
    RecordsChars(l, c);
    RecordsChars(l, d);
  }

  /** A line whose column `j` (one of the first six) rules out every
      recording prefix, or that is too short to carry one. */
  lemma RecordsNothing(l: string, j: nat)
    requires |l| < 6 || (j < 6 && j < |l| && (
      || (j < 4 && l[j] != ' ')
      || (j == 4 && l[j] != 'p' && l[j] != 'c')
      || (j == 5 && l[j] != 'r' && l[j] != 'o')))
    ensures forall c :: !Records(l, c)
  {
    forall c
      ensures !Records(l, c)
    {
      var n := CollectionName(c);
      var direct := "    " + n + " << ";
      var viaCompare := "    compare(" + n + ", ";
      assert direct[..4] == "    " && direct[4] == 'p' && (direct[5] == 'r' || direct[5] == 'o');
      assert viaCompare[..4] == "    " && viaCompare[4] == 'c' && viaCompare[5] == 'o';
      var i := if |l| < 6 then 5 else j;
      NotStartsWith(l, direct, i);
      NotStartsWith(l, viaCompare, i);
    }
  }

  /** The line that sets the script variable `tablename`. */
  function Binding(name: string): string {
    "tablename = \"" + name + "\""
  }

  predicate IsBinding(l: string) {
    StartsWith(l, "tablename = ")
  }

  /** The last line of `ls` that sets `tablename`, if any: the value every
      later `tablename` reference reads. */
  function LastBinding(ls: seq<string>): (r: Option<string>)
    ensures r.Some? ==> r.value in ls && IsBinding(r.value)
    ensures r.None? <==> forall i :: 0 <= i < |ls| ==> !IsBinding(ls[i])
    decreases |ls|
  {
    if ls == [] then None
    else if IsBinding(ls[|ls| - 1]) then Some(ls[|ls| - 1])
    else
      var r := LastBinding(ls[..|ls| - 1]);
      assert forall i :: 0 <= i < |ls| - 1 ==> ls[..|ls| - 1][i] == ls[i];
      r
  }

  /** Lines that bind nothing do not change what `tablename` holds. */
  lemma {:induction false} LastBindingAppend(a: seq<string>, b: seq<string>)
    ensures LastBinding(a + b) == if LastBinding(b).Some? then LastBinding(b) else LastBinding(a)
    decreases |b|
  {
    if b == [] {
      assert a + b == a;
    } else {
      var ab := a + b;
      assert ab[|ab| - 1] == b[|b| - 1];
      assert ab[..|ab| - 1] == a + b[..|b| - 1];
      LastBindingAppend(a, b[..|b| - 1]);
    }
  }

  /** Cutting `a + b` anywhere inside `b`, when `b` binds nothing, leaves
      `a`'s binding in force whatever came before. */
  lemma LastBindingCut(earlier: seq<string>, a: seq<string>, b: seq<string>, i: nat)
    requires LastBinding(a).Some? && LastBinding(b) == None
    requires |a| <= i <= |a| + |b|
    ensures LastBinding(earlier + (a + b)[..i]) == LastBinding(a)
  {
    var tail := b[..i - |a|];
    assert (a + b)[..i] == a + tail;
    assert LastBinding(tail) == None by {
      assert forall j :: 0 <= j < |tail| ==> tail[j] == b[j];
    }
    LastBindingAppend(a, tail);
    LastBindingAppend(earlier, a + tail);
  }

  lemma BindingIsBinding(name: string)
    ensures IsBinding(Binding(name))
  {
    assert Binding(name) == "tablename = " + ("\"" + name + "\"");
  }

  /** A line carrying none of the structure the script's properties are
      stated with: it opens or closes no block, is not the abort gate, sets no
      `tablename` and records into no collection. */
  predicate Quiet(l: string) {
    Plain(l) && Inert(l)
  }

  /** Not the abort gate, sets no `tablename`, records into no collection. */
  predicate Inert(l: string) {
    l != GateOpen && !IsBinding(l) && forall c :: !Records(l, c)
  }

  lemma EmptyQuiet()
    ensures Quiet("")
  {
    RecordsNothing("", 0);
    NotStartsWith("", "if ", 0);
    NotStartsWith("", "def ", 0);
    NotStartsWith("", "tablename = ", 0);
  }

  lemma NotBindingAt(l: string)
    requires |l| < 6 || l[0] != 't' || l[5] != 'n'
    ensures !IsBinding(l)
  {
    if |l| < 6 {
      NotStartsWith(l, "tablename = ", 11);
    } else if l[0] != 't' {
      NotStartsWith(l, "tablename = ", 0);
    } else {
      NotStartsWith(l, "tablename = ", 5);
    }
  }

  lemma NotGateAt(l: string, k: nat)
    requires k < |l| && (forall i :: 0 <= i < k ==> l[i] == ' ') && l[k] != ' '
    requires l[k] != 'i' || k + 1 == |l| || l[k + 1] != 'f'
    ensures l != GateOpen
  {
    assert GateOpen[0] == 'i' && GateOpen[1] == 'f' && |GateOpen| > 4;
    if k > 0 {
      assert l[0] == ' ';
    }
  }

  /** Sufficient conditions on the first columns of a line for `Quiet`:
      `k` is its indentation, `j` the column that rules out recording. */
  lemma QuietAt(l: string, k: nat, j: nat)
    requires k < |l| && (forall i :: 0 <= i < k ==> l[i] == ' ') && l[k] != ' '
    requires l[k] != 'i' || k + 1 == |l| || l[k + 1] != 'f'
    requires l[k] != 'd' || k + 1 == |l| || l[k + 1] != 'e'
    requires l[k] != 'e' || |l| != k + 3 || l[k + 1] != 'n'
    requires |l| < 6 || (j < 6 && j < |l| && (
      || (j < 4 && l[j] != ' ')
      || (j == 4 && l[j] != 'p' && l[j] != 'c')
      || (j == 5 && l[j] != 'r' && l[j] != 'o')))
    requires |l| < 6 || l[0] != 't' || l[5] != 'n'
    ensures Quiet(l)
  {
    PlainAt(l, k);
    RecordsNothing(l, j);
    NotGateAt(l, k);
    NotBindingAt(l);
  }

  /** An unindented line whose first word is none of `if`, `def`, `end` and
      `tablename`. */
  predicate TopLevel(l: string) {
    && |l| > 0 && l[0] != ' '
    && (l[0] == 'i' ==> |l| > 1 && l[1] != 'f')
    && (l[0] == 'd' ==> |l| > 1 && l[1] != 'e')
    && (l[0] == 'e' ==> |l| != 3)
    && (l[0] == 't' ==> |l| < 6 || l[5] != 'n')
  }

  lemma TopLevelQuiet(l: string)
    requires TopLevel(l)
    ensures Quiet(l)
  {
    QuietAt(l, 0, 0);
  }

  /** A line indented by four spaces whose first word is none of `if`, `def`,
      `end` and does not begin like a collection name or `compare`. */
  predicate Indented(l: string) {
    && |l| > 5 && l[0] == ' ' && l[1] == ' ' && l[2] == ' ' && l[3] == ' '
    && l[4] != ' ' && l[4] != 'i' && l[4] != 'd' && (l[4] == 'e' ==> l[5] != 'n')
    && (l[4] == 'p' || l[4] == 'c' ==> l[5] != 'r' && l[5] != 'o')
  }

  lemma IndentedQuiet(l: string)
    requires Indented(l)
    ensures Quiet(l)
  {
    QuietAt(l, 4, if l[4] == 'p' || l[4] == 'c' then 5 else 4);
  }

  predicate AllQuiet(ls: seq<string>) {
    forall i :: 0 <= i < |ls| ==> Quiet(ls[i])
  }

  lemma QuietAppend(a: seq<string>, b: seq<string>)
    requires AllQuiet(a) && AllQuiet(b)
    ensures AllQuiet(a + b)
  {
    forall i | 0 <= i < |a + b|
      ensures Quiet((a + b)[i])
    {
      if i >= |a| {
        assert (a + b)[i] == b[i - |a|];
      }
    }
  }

  lemma QuietFive(a: string, b: string, c: string, d: string, e: string)
    requires Quiet(a) && Quiet(b) && Quiet(c) && Quiet(d) && Quiet(e)
    ensures AllQuiet([a, b, c, d, e])
  {
  }

  lemma AllTopLevelQuiet(ls: seq<string>)
    requires forall i :: 0 <= i < |ls| ==> TopLevel(ls[i])
    ensures AllQuiet(ls)
  {
    forall i | 0 <= i < |ls|
      ensures Quiet(ls[i])
    {
      TopLevelQuiet(ls[i]);
    }
  }

  lemma AllIndentedQuiet(ls: seq<string>)
    requires forall i :: 0 <= i < |ls| ==> Indented(ls[i])
    ensures AllQuiet(ls)
  {
    forall i | 0 <= i < |ls|
      ensures Quiet(ls[i])
    {
      IndentedQuiet(ls[i]);
    }
  }

  /** A line of spaces. */
  predicate Blank(pad: string) {
    forall i :: 0 <= i < |pad| ==> pad[i] == ' '
  }

  /** `pad + "if " + cond` opens a block. */
  lemma OpensIf(pad: string, cond: string)
    requires Blank(pad)
    ensures OpensBlock(pad + "if " + cond)
  {
    var l := pad + "if " + cond;
    UnindentAt(l, |pad|);
    assert l[|pad|..] == "if " + cond;
  }

  /** `pad + "def " + sig` opens a block. */
  lemma OpensDef(pad: string, sig: string)
    requires Blank(pad)
    ensures OpensBlock(pad + "def " + sig)
  {
    var l := pad + "def " + sig;
    UnindentAt(l, |pad|);
    assert l[|pad|..] == "def " + sig;
  }

  /** `pad + "end"` closes a block. */
  lemma ClosesEnd(pad: string)
    requires Blank(pad)
    ensures ClosesBlock(pad + "end")
  {
    var l := pad + "end";
    UnindentAt(l, |pad|);
    assert l[|pad|..] == "end";
  }

  lemma BlockOfOne(o: string, m: string, cl: string)
    requires OpensBlock(o) && Plain(m) && ClosesBlock(cl)
    ensures Balanced([o, m, cl])
  {
    BalancedPlain([m]);
    BalancedBlock(o, [m], cl);
    assert [o] + [m] + [cl] == [o, m, cl];
  }

  lemma BlockOfThree(o: string, b1: string, b2: string, b3: string, cl: string)
    requires OpensBlock(o) && Balanced([b1, b2, b3]) && ClosesBlock(cl)
    ensures Balanced([o, b1, b2, b3, cl])
  {
    BalancedBlock(o, [b1, b2, b3], cl);
    assert [o] + [b1, b2, b3] + [cl] == [o, b1, b2, b3, cl];
  }

  /** An opening line, a balanced body and a closing line make a balanced block. */
  lemma BalancedBlock(open: string, body: seq<string>, close: string)
    requires OpensBlock(open) && Balanced(body) && ClosesBlock(close)
    ensures Balanced([open] + body + [close])
  {
    var ds := Deltas([open] + body + [close]);
    DeltasAppend([open] + body, [close]);
    DeltasAppend([open], body);
    var u := Unindent(close);
    assert u == "end";
    NotStartsWith(u, "if ", 0);
    NotStartsWith(u, "def ", 0);
    assert Deltas([open]) == [1] && Deltas([close]) == [-1];
    assert ds == [1] + Deltas(body) + [-1];
    SumAppend([1] + Deltas(body), [-1]);
    SumAppend([1], Deltas(body));
    LowAppend([1] + Deltas(body), [-1]);
    LowAppend([1], Deltas(body));
  }

  lemma AllQuietBalanced(ls: seq<string>)
    requires AllQuiet(ls)
    ensures Balanced(ls)
  {
    BalancedPlain(ls);
  }

  // ---------------------------------------------------------------------------
  // Block-level facts
  // ---------------------------------------------------------------------------

  /** No line of `ls` is the abort gate. */
  predicate NoGate(ls: seq<string>) {
    forall i :: 0 <= i < |ls| ==> ls[i] != GateOpen
  }

  /** Every line of `ls` that records anything records into `c`. */
  predicate RecordsOnly(ls: seq<string>, c: Collection) {
    forall i, d :: 0 <= i < |ls| && Records(ls[i], d) ==> d == c
  }

  /** No line of `ls` records into `c`. */
  predicate NeverRecords(ls: seq<string>, c: Collection) {
    forall i :: 0 <= i < |ls| ==> !Records(ls[i], c)
  }

  /** A line inside a check: plain, not the gate, binding nothing, and
      recording (if at all) into `c`. */
  predicate Reporting(l: string, c: Collection) {
    Plain(l) && l != GateOpen && !IsBinding(l) && forall d :: Records(l, d) ==> d == c
  }

  predicate AllReporting(ls: seq<string>, c: Collection) {
    forall i :: 0 <= i < |ls| ==> Reporting(ls[i], c)
  }

  lemma QuietReporting(ls: seq<string>, c: Collection)
    requires AllQuiet(ls)
    ensures AllReporting(ls, c)
  {
  }

  lemma ReportingAppend(a: seq<string>, b: seq<string>, c: Collection)
    requires AllReporting(a, c) && AllReporting(b, c)
    ensures AllReporting(a + b, c)
  {
    forall i | 0 <= i < |a + b|
      ensures Reporting((a + b)[i], c)
    {
      if i >= |a| {
        assert (a + b)[i] == b[i - |a|];
      }
    }
  }

  /** `    <collection> << msg` records into that collection and no other. */
  lemma ReportLine(c: Collection, msg: string)
    ensures var l := "    " + CollectionName(c) + " << " + msg;
      Reporting(l, c) && Records(l, c)
  {
    var n := CollectionName(c);
    var l := "    " + n + " << " + msg;
    assert l == ("    " + n + " << ") + msg;
    assert Records(l, c);
    forall d | Records(l, d)
      ensures d == c
    {
      RecordsUnique(l, c, d);
    }
    ReportLinePlain(c, msg);
  }

  lemma ReportLinePlain(c: Collection, msg: string)
    ensures Plain("    " + CollectionName(c) + " << " + msg)
  {
    var n := CollectionName(c);
    var l := "    " + n + " << " + msg;
    assert forall i :: 0 <= i < 4 ==> l[i] == ' ';
    assert l[4] == n[0] == 'p' && l[5] == n[1];
    PlainAt(l, 4);
  }

  /** A `compare(<collection>, ...)` line records into that collection and no other. */
  lemma CompareLine(l: string, c: Collection)
    requires StartsWith(l, "    compare(" + CollectionName(c) + ", ")
    ensures Reporting(l, c) && Records(l, c)
  {
    assert Records(l, c);
    forall d | Records(l, d)
      ensures d == c
    {
      RecordsUnique(l, c, d);
    }
    var p := "    compare(" + CollectionName(c) + ", ";
    assert p[..6] == "    co";
    ComparePlain(l, p);
    StartsWithAt(l, p, 0);
    assert l[0] == ' ';
    NotStartsWith(l, "tablename = ", 0);
    assert GateOpen[0] == 'i';
  }

  lemma ComparePlain(l: string, p: string)
    requires StartsWith(l, p) && |p| > 5 && p[..6] == "    co"
    ensures Plain(l)
  {
    forall i | 0 <= i < 6
      ensures l[i] == p[i]
    {
      StartsWithAt(l, p, i);
    }
    assert forall i :: 0 <= i < 4 ==> l[i] == ' ' by {
      assert forall i :: 0 <= i < 4 ==> p[..6][i] == ' ';
    }
    assert l[4] == p[..6][4] == 'c' && l[5] == p[..6][5] == 'o';
    PlainAt(l, 4);
  }

  /** The binding line is plain, not the gate, and records nothing. */
  lemma BindingLine(name: string)
    ensures var l := Binding(name);
      IsBinding(l) && Plain(l) && l != GateOpen && forall d :: !Records(l, d)
  {
    var l := Binding(name);
    BindingIsBinding(name);
    assert l[0] == 't' && l[1] == 'a';
    PlainAt(l, 0);
    RecordsNothing(l, 0);
    assert GateOpen[0] == 'i';
  }

  lemma EndQuietParts()
    ensures ClosesBlock("end") && Inert("end") && Quiet("")
  {
    ClosesEnd("");
    assert "" + "end" == "end";
    RecordsNothing("end", 0);
    NotStartsWith("end", "tablename = ", 3);
    EmptyQuiet();
  }

  /** A check block: lines that record nothing, then `if <guard>`, a body of
      reporting lines, `end` and an empty line. */
  lemma Frame(pre: seq<string>, guard: string, body: seq<string>, c: Collection)
    requires forall i :: 0 <= i < |pre| ==> Plain(pre[i]) && pre[i] != GateOpen && forall d :: !Records(pre[i], d)
    requires OpensBlock(guard) && Inert(guard)
    requires AllReporting(body, c)
    ensures var r := pre + [guard] + body + ["end", ""];
      && Balanced(r) && NoGate(r) && RecordsOnly(r, c)
      && LastBinding(r) == LastBinding(pre)
      && r[|pre|] == guard && RecordsUnder(r, |pre|)
  {
    EndQuietParts();
    FrameUnder(pre + [guard] + body + ["end", ""], pre, guard, body, "end", "");
    FrameBalanced(pre, guard, body);
    FrameLines(pre, guard, body, c);
    FrameBinding(pre, guard, body, c);
  }

  /** Every line of `ls` that records anything runs inside the block that
      line `g` opens, and inside no other block. */
  predicate RecordsUnder(ls: seq<string>, g: nat) {
    forall i, c :: 0 <= i < |ls| && Records(ls[i], c) ==> g < i && OpenBlocks(ls[..i]) == [g]
  }

  /** In a check block, the guard is the one block open around every body line. */
  lemma UnderGuard(r: seq<string>, pre: seq<string>, guard: string, body: seq<string>, i: nat)
    requires forall j :: 0 <= j < |pre| ==> Plain(pre[j])
    requires OpensBlock(guard)
    requires forall j :: 0 <= j < |body| ==> Plain(body[j])
    requires |pre| < i <= |pre| + |body| && i <= |r| && r[..i] == pre + [guard] + body[..i - |pre| - 1]
    ensures OpenBlocks(r[..i]) == [|pre|]
  {
    var head := body[..i - |pre| - 1];
    forall j | 0 <= j < |head|
      ensures Plain(head[j])
    {
      assert head[j] == body[j];
    }
    RunPlain([], pre, 0);
    RunSnoc([], pre, guard, 0);
    assert Run([], pre + [guard], 0) == [|pre|];
    RunAppend([], pre + [guard], head, 0);
    RunPlain([|pre|], head, |pre| + 1);
  }

  /** A check block records only inside its guard. */
  lemma FrameUnder(r: seq<string>, pre: seq<string>, guard: string, body: seq<string>, e: string, f: string)
    requires r == pre + [guard] + body + [e, f]
    requires forall j :: 0 <= j < |pre| ==> Plain(pre[j]) && forall d :: !Records(pre[j], d)
    requires OpensBlock(guard) && Inert(guard) && Inert(e) && Inert(f)
    requires forall j :: 0 <= j < |body| ==> Plain(body[j])
    ensures r[|pre|] == guard && RecordsUnder(r, |pre|)
  {
    forall j | 0 <= j < |r| && !(|pre| < j <= |pre| + |body|)
      ensures forall d :: !Records(r[j], d)
    {
      if j < |pre| {
        assert r[j] == pre[j];
      } else if j == |pre| {
        assert r[j] == guard;
      } else {
        assert r[j] == e || r[j] == f;
      }
    }
    forall i, c | 0 <= i < |r| && Records(r[i], c)
      ensures |pre| < i && OpenBlocks(r[..i]) == [|pre|]
    {
      assert |pre| < i <= |pre| + |body|;
      assert r[..i] == pre + [guard] + body[..i - |pre| - 1];
      UnderGuard(r, pre, guard, body, i);
    }
  }

  lemma FrameBalanced(pre: seq<string>, guard: string, body: seq<string>)
    requires forall i :: 0 <= i < |pre| ==> Plain(pre[i])
    requires OpensBlock(guard) && ClosesBlock("end") && Plain("")
    requires forall i :: 0 <= i < |body| ==> Plain(body[i])
    ensures Balanced(pre + [guard] + body + ["end", ""])
  {
    FramedBalanced(pre + [guard] + body + ["end", ""], pre, guard, body, "end", "");
  }

  lemma FramedBalanced(r: seq<string>, pre: seq<string>, guard: string, body: seq<string>, e: string, f: string)
    requires r == pre + [guard] + body + [e, f]
    requires forall i :: 0 <= i < |pre| ==> Plain(pre[i])
    requires OpensBlock(guard) && ClosesBlock(e) && Plain(f)
    requires forall i :: 0 <= i < |body| ==> Plain(body[i])
    ensures Balanced(r)
  {
    var blk := [guard] + body + [e];
    BalancedPlain(body);
    BalancedBlock(guard, body, e);
    BalancedPlain([f]);
    BalancedAppend(blk, [f]);
    BalancedPlain(pre);
    BalancedAppend(pre, blk + [f]);
    assert r == pre + (blk + [f]);
  }

  lemma FrameLines(pre: seq<string>, guard: string, body: seq<string>, c: Collection)
    requires forall i :: 0 <= i < |pre| ==> pre[i] != GateOpen && forall d :: !Records(pre[i], d)
    requires Inert(guard) && Inert("end") && Inert("")
    requires AllReporting(body, c)
    ensures var r := pre + [guard] + body + ["end", ""];
      NoGate(r) && RecordsOnly(r, c)
  {
    var r := pre + [guard] + body + ["end", ""];
    forall i | 0 <= i < |r|
      ensures r[i] != GateOpen && forall d :: Records(r[i], d) ==> d == c
    {
      if |pre| < i <= |pre| + |body| {
        assert r[i] == body[i - |pre| - 1];
      }
    }
  }

  lemma FrameBinding(pre: seq<string>, guard: string, body: seq<string>, c: Collection)
    requires Inert(guard) && Inert("end") && Inert("")
    requires AllReporting(body, c)
    ensures LastBinding(pre + [guard] + body + ["end", ""]) == LastBinding(pre)
  {
    var rest := [guard] + body + ["end", ""];
    forall i | 0 <= i < |rest|
      ensures !IsBinding(rest[i])
    {
      if 0 < i <= |body| {
        assert rest[i] == body[i - 1];
      }
    }
    LastBindingAppend(pre, rest);
    assert pre + rest == pre + [guard] + body + ["end", ""];
  }

  lemma NoGateAppend(a: seq<string>, b: seq<string>)
    requires NoGate(a) && NoGate(b)
    ensures NoGate(a + b)
  {
    forall i | 0 <= i < |a + b|
      ensures (a + b)[i] != GateOpen
    {
      if i >= |a| {
        assert (a + b)[i] == b[i - |a|];
      }
    }
  }

  lemma RecordsOnlyAppend(a: seq<string>, b: seq<string>, c: Collection)
    requires RecordsOnly(a, c) && RecordsOnly(b, c)
    ensures RecordsOnly(a + b, c)
  {
    forall i, d | 0 <= i < |a + b| && Records((a + b)[i], d)
      ensures d == c
    {
      if i >= |a| {
        assert (a + b)[i] == b[i - |a|];
      }
    }
  }

  lemma NeverRecordsAppend(a: seq<string>, b: seq<string>, c: Collection)
    requires NeverRecords(a, c) && NeverRecords(b, c)
    ensures NeverRecords(a + b, c)
  {
    forall i | 0 <= i < |a + b|
      ensures !Records((a + b)[i], c)
    {
      if i >= |a| {
        assert (a + b)[i] == b[i - |a|];
      }
    }
  }

  /** A block recording only into `c` never records into any other collection. */
  lemma RecordsOnlyNever(ls: seq<string>, c: Collection, d: Collection)
    requires RecordsOnly(ls, c) && c != d
    ensures NeverRecords(ls, d)
  {
  }

  /** A line that opens or closes no block, is not the abort gate and records
      into no collection (it may set `tablename`). */
  predicate FlatLine(l: string) {
    Plain(l) && l != GateOpen && forall c :: !Records(l, c)
  }

  predicate Flat(ls: seq<string>) {
    forall i :: 0 <= i < |ls| ==> FlatLine(ls[i])
  }

  lemma QuietFlat(ls: seq<string>)
    requires AllQuiet(ls)
    ensures Flat(ls)
  {
  }

  lemma FlatAppend(a: seq<string>, b: seq<string>)
    requires Flat(a) && Flat(b)
    ensures Flat(a + b)
  {
    forall i | 0 <= i < |a + b|
      ensures FlatLine((a + b)[i])
    {
      if i >= |a| {
        assert (a + b)[i] == b[i - |a|];
      }
    }
  }

  /** Flat lines are balanced, hold no gate and record nothing. */
  lemma FlatShape(ls: seq<string>)
    requires Flat(ls)
    ensures Balanced(ls) && NoGate(ls) && forall c :: NeverRecords(ls, c)
  {
    BalancedPlain(ls);
  }

  /** Reading one more line. */
  lemma RunSnoc(st: seq<int>, ls: seq<string>, l: string, base: int)
    ensures Run(st, ls + [l], base) == Step(Run(st, ls, base), l, base + |ls|)
  {
    RunAppend(st, ls, [l], base);
  }
}
