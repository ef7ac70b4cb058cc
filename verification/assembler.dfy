/**
  The script assembler: the header with its summary of the changes, the
  pre-validation phase closed by the single abort gate, the modifications,
  the post-validation phase and the footer, in that order.
 */
module Assembler {
  import opened Schema
  import opened Lines
  import opened Lex
  import Decimal
  import Validation
  import Mutation

  // ---------------------------------------------------------------------------
  // Lines that change nothing: banners, comments, `puts`
  // ---------------------------------------------------------------------------

  /** The rule of 79 `#` that frames every banner. */
  function Rule(): string {
    seq(79, _ => '#')
  }

  /** A Ruby comment line. */
  predicate Comment(l: string) {
    |l| > 0 && l[0] == '#'
  }

  /** A run of lines with no effect on the checks: balanced, without the
      abort gate, recording into no collection. */
  predicate Silent(ls: seq<string>) {
    Balanced(ls) && NoGate(ls) && forall c :: NeverRecords(ls, c)
  }

  lemma SilentAppend(a: seq<string>, b: seq<string>)
    requires Silent(a) && Silent(b)
    ensures Silent(a + b)
  {
    BalancedAppend(a, b);
    NoGateAppend(a, b);
    forall c
      ensures NeverRecords(a + b, c)
    {
      NeverRecordsAppend(a, b, c);
    }
  }

  /** Comments, top-level statements and empty lines are silent. */
  lemma SilentLines(ls: seq<string>)
    requires forall i :: 0 <= i < |ls| ==> ls[i] == "" || Comment(ls[i]) || TopLevel(ls[i])
    ensures Silent(ls)
  {
    forall i | 0 <= i < |ls|
      ensures Quiet(ls[i])
    {
      if ls[i] == "" {
        EmptyQuiet();
      } else {
        TopLevelQuiet(ls[i]);
      }
    }
    QuietFlat(ls);
    FlatShape(ls);
  }

  // ---------------------------------------------------------------------------
  // Header: the summary
  // ---------------------------------------------------------------------------

  /** How the summary lists a table name or a property change. */
  const Listed: string := "#       "

  const ChangeNote: string := "property change: "

  /** The summary head for a change type: its count, `table` or `tables`,
      and `:` when tables follow, `.` when none do. */
  function SummaryLine(verb: string, n: nat): string {
    "#  * " + verb + " " + Decimal.NatToString(n) + " table"
      + (if n != 1 then "s" else "") + (if n > 0 then ":" else ".")
  }

  /** A summary head can be read back: the count is the digit run after the
      verb, the `s` is there iff the count is not one, and the line ends in
      `:` iff the count is positive. */
  lemma SummaryReadsBack(verb: string, n: nat)
    ensures var l := SummaryLine(verb, n); var head := "#  * " + verb + " ";
      && StartsWith(l, head) && |head| + 8 <= |l|
      && (l[|l| - 1] == ':' <==> n > 0)
      && (l[|l| - 2] == 's' <==> n != 1)
      && Decimal.Spells(l[|head|..|l| - (if l[|l| - 2] == 's' then 8 else 7)], n)
  {
    var l := SummaryLine(verb, n);
    var head := "#  * " + verb + " ";
    var d := Decimal.NatToString(n);
    var plural := if n != 1 then "s" else "";
    var stop := if n > 0 then ":" else ".";
    assert l == head + d + " table" + plural + stop;
    StartsWithAppend(head, d + " table" + plural + stop);
    assert l == head + (d + " table" + plural + stop);
    var tail := 6 + |plural| + 1;
    assert l[|l| - 2] == (if n != 1 then 's' else 'e');
    assert l[|head|..|l| - tail] == d;
    Decimal.ParseNatToString(n);
  }

  /** The tables of one group, one line each, in input order. */
  function Names(cs: seq<Change>): (r: seq<string>)
    ensures |r| == |cs|
  {
    seq(|cs|, i requires 0 <= i < |cs| => Listed + cs[i].tableName)
  }

  /** `p` put before every string of `xs`. */
  function Prefixed(p: string, xs: seq<string>): (r: seq<string>)
    ensures |r| == |xs|
    ensures forall i :: 0 <= i < |xs| ==> r[i] == p + xs[i]
  {
    seq(|xs|, i requires 0 <= i < |xs| => p + xs[i])
  }

  lemma PrefixedAppend(p: string, a: seq<string>, b: seq<string>)
    ensures Prefixed(p, a + b) == Prefixed(p, a) + Prefixed(p, b)
  {
  }

  /** Prefixing maps equal multisets to equal multisets. */
  lemma {:induction false} PrefixedPermutation(p: string, xs: seq<string>, ys: seq<string>)
    requires multiset(xs) == multiset(ys)
    ensures multiset(Prefixed(p, xs)) == multiset(Prefixed(p, ys))
    decreases |xs|
  {
    if xs != [] {
      var x := xs[0];
      assert x in multiset(ys);
      var j :| 0 <= j < |ys| && ys[j] == x;
      var rest := ys[..j] + ys[j + 1..];
      assert ys == ys[..j] + [x] + ys[j + 1..];
      assert xs == [x] + xs[1..];
      assert multiset(ys) == multiset(ys[..j]) + multiset{x} + multiset(ys[j + 1..]);
      assert multiset(rest) == multiset(ys[..j]) + multiset(ys[j + 1..]);
      assert multiset(xs) == multiset{x} + multiset(xs[1..]);
      assert multiset(xs[1..]) == multiset(xs) - multiset{x};
      assert multiset(rest) == multiset(ys) - multiset{x};
      PrefixedPermutation(p, xs[1..], rest);
      PrefixedAppend(p, [x], xs[1..]);
      PrefixedAppend(p, ys[..j] + [x], ys[j + 1..]);
      PrefixedAppend(p, ys[..j], [x]);
      PrefixedAppend(p, ys[..j], ys[j + 1..]);
    }
  }

  /** The header notes of an altered table: each property change as
      `property change: ...`, sorted, then listed. */
  function Notes(c: Change): seq<string> {
    Prefixed(Listed, Sort(Prefixed(ChangeNote, c.propertyChanges)))
  }

  /** The notes are ascending and list each property change once per
      occurrence, nothing else. */
  lemma NotesSorted(c: Change)
    ensures Ascending(Notes(c))
    ensures multiset(Notes(c)) == multiset(Prefixed(Listed + ChangeNote, c.propertyChanges))
  {
    var noted := Prefixed(ChangeNote, c.propertyChanges);
    var sorted := Sort(noted);
    var r := Notes(c);
    forall i, j | 0 <= i < j < |r|
      ensures !Below(r[j], r[i])
    {
      BelowCommonPrefix(Listed, sorted[j], sorted[i]);
    }
    PrefixedPermutation(Listed, sorted, noted);
    assert Prefixed(Listed, noted) == Prefixed(Listed + ChangeNote, c.propertyChanges) by {
      forall i | 0 <= i < |noted|
        ensures Listed + noted[i] == Listed + ChangeNote + c.propertyChanges[i]
      {
      }
    }
  }

  /** The notes do not depend on the order the property changes arrive in. */
  lemma NotesOrderIndependent(c: Change, d: Change)
    requires multiset(c.propertyChanges) == multiset(d.propertyChanges)
    ensures Notes(c) == Notes(d)
  {
    PrefixedPermutation(ChangeNote, c.propertyChanges, d.propertyChanges);
    SortCanonical(Prefixed(ChangeNote, c.propertyChanges), Prefixed(ChangeNote, d.propertyChanges));
  }

  /** Each altered table's name, followed by its notes. */
  function AlterEntries(cs: seq<Change>): seq<string>
    decreases |cs|
  {
    if cs == [] then [] else [Listed + cs[0].tableName] + Notes(cs[0]) + AlterEntries(cs[1..])
  }

  function Group(verb: string, cs: seq<Change>): seq<string> {
    [SummaryLine(verb, |cs|)] + Names(cs)
  }

  function AlterGroup(cs: seq<Change>): seq<string> {
    [SummaryLine("Alter", |cs|)] + AlterEntries(cs)
  }

  /** The summary block of the header (between its opening and closing rules). */
  function SummaryLines(cs: seq<Change>): seq<string> {
    Intro()
    + Group("Create", OfKind(cs, Create)) + ["#"]
    + AlterGroup(OfKind(cs, Alter)) + ["#"]
    + Group("Drop", OfKind(cs, Drop)) + ["#"]
    + Group("Ignore", OfKind(cs, Ignore))
  }

  /** Every line of the summary starts with the head or the list indent. */
  const Head: string := "#  * "

  lemma SummaryLineHead(verb: string, n: nat)
    ensures StartsWith(SummaryLine(verb, n), Head) && !StartsWith(SummaryLine(verb, n), Listed)
  {
    var l := SummaryLine(verb, n);
    StartsWithAppend(Head, verb + " " + Decimal.NatToString(n) + " table"
      + (if n != 1 then "s" else "") + (if n > 0 then ":" else "."));
    assert l == Head + (verb + " " + Decimal.NatToString(n) + " table"
      + (if n != 1 then "s" else "") + (if n > 0 then ":" else "."));
    StartsWithAt(l, Head, 3);
    NotStartsWith(l, Listed, 3);
  }

  lemma HeadChars()
    ensures |Listed| == 8 && Listed[0] == '#' && Listed[3] == ' '
    ensures |Head| == 5 && Head[0] == '#' && Head[2] == ' ' && Head[3] == '*'
  {
  }

  /** Every line of `ls` starts with `p`. */
  predicate AllStart(ls: seq<string>, p: string) {
    forall i :: 0 <= i < |ls| ==> StartsWith(ls[i], p)
  }

  lemma AllStartAppend(a: seq<string>, b: seq<string>, p: string)
    requires AllStart(a, p) && AllStart(b, p)
    ensures AllStart(a + b, p)
  {
    forall i | 0 <= i < |a + b|
      ensures StartsWith((a + b)[i], p)
    {
      if i >= |a| {
        assert (a + b)[i] == b[i - |a|];
      }
    }
  }

  lemma ListedLine(l: string)
    requires StartsWith(l, Listed)
    ensures !StartsWith(l, Head) && Comment(l)
  {
    HeadChars();
    StartsWithAt(l, Listed, 0);
    StartsWithAt(l, Listed, 3);
    NotStartsWith(l, Head, 3);
  }

  /** Listed lines: comments that are not summary heads. */
  lemma ListedLines(ls: seq<string>)
    requires AllStart(ls, Listed)
    ensures WithPrefix(ls, Listed) == ls && WithPrefix(ls, Head) == []
    ensures forall i :: 0 <= i < |ls| ==> Comment(ls[i])
  {
    forall i | 0 <= i < |ls|
      ensures !StartsWith(ls[i], Head) && Comment(ls[i])
    {
      ListedLine(ls[i]);
    }
    AllWithPrefix(ls, Listed);
    NoneWithPrefix(ls, Head);
  }

  lemma NamesListed(cs: seq<Change>)
    ensures AllStart(Names(cs), Listed)
  {
    forall i | 0 <= i < |cs|
      ensures StartsWith(Names(cs)[i], Listed)
    {
      StartsWithAppend(Listed, cs[i].tableName);
    }
  }

  lemma NotesListed(c: Change)
    ensures AllStart(Notes(c), Listed)
  {
    var sorted := Sort(Prefixed(ChangeNote, c.propertyChanges));
    forall i | 0 <= i < |sorted|
      ensures StartsWith(Notes(c)[i], Listed)
    {
      StartsWithAppend(Listed, sorted[i]);
    }
  }

  lemma {:induction false} AlterEntriesListed(cs: seq<Change>)
    ensures AllStart(AlterEntries(cs), Listed)
    decreases |cs|
  {
    if cs != [] {
      AlterEntriesListed(cs[1..]);
      StartsWithAppend(Listed, cs[0].tableName);
      NotesListed(cs[0]);
      AllStartAppend([Listed + cs[0].tableName], Notes(cs[0]), Listed);
      AllStartAppend([Listed + cs[0].tableName] + Notes(cs[0]), AlterEntries(cs[1..]), Listed);
    }
  }

  /** A summary group: its head, then its listed lines. */
  lemma GroupParts(head: string, listed: seq<string>)
    requires StartsWith(head, Head) && !StartsWith(head, Listed)
    requires AllStart(listed, Listed)
    ensures WithPrefix([head] + listed, Head) == [head]
    ensures WithPrefix([head] + listed, Listed) == listed
    ensures Silent([head] + listed)
  {
    ListedLines(listed);
    WithPrefixAppend([head], listed, Head);
    WithPrefixAppend([head], listed, Listed);
    StartsWithAt(head, Head, 0);
    var g := [head] + listed;
    forall i | 0 <= i < |g|
      ensures Comment(g[i])
    {
      if i > 0 {
        assert g[i] == listed[i - 1];
      }
    }
    SilentLines(g);
  }

  lemma GroupShape(verb: string, cs: seq<Change>)
    ensures WithPrefix(Group(verb, cs), Head) == [SummaryLine(verb, |cs|)]
    ensures WithPrefix(Group(verb, cs), Listed) == Names(cs)
    ensures Silent(Group(verb, cs))
  {
    SummaryLineHead(verb, |cs|);
    NamesListed(cs);
    GroupParts(SummaryLine(verb, |cs|), Names(cs));
  }

  lemma AlterGroupShape(cs: seq<Change>)
    ensures WithPrefix(AlterGroup(cs), Head) == [SummaryLine("Alter", |cs|)]
    ensures WithPrefix(AlterGroup(cs), Listed) == AlterEntries(cs)
    ensures Silent(AlterGroup(cs))
  {
    SummaryLineHead("Alter", |cs|);
    AlterEntriesListed(cs);
    GroupParts(SummaryLine("Alter", |cs|), AlterEntries(cs));
  }

  /** A separator between groups and the lines before the first group. */
  lemma SeparatorShape(ls: seq<string>)
    requires ls == ["#"] || ls == Intro()
    ensures WithPrefix(ls, Head) == [] && WithPrefix(ls, Listed) == [] && Silent(ls)
  {
    forall i | 0 <= i < |ls|
      ensures !StartsWith(ls[i], Head) && !StartsWith(ls[i], Listed) && Comment(ls[i])
    {
      NotStartsWith(ls[i], Head, 2);
      NotStartsWith(ls[i], Listed, 2);
    }
    NoneWithPrefix(ls, Head);
    NoneWithPrefix(ls, Listed);
    SilentLines(ls);
  }

  /** Appending a part to the summary built so far. */
  lemma SummaryStep(a: seq<string>, b: seq<string>)
    requires Silent(a) && Silent(b)
    ensures WithPrefix(a + b, Head) == WithPrefix(a, Head) + WithPrefix(b, Head)
    ensures WithPrefix(a + b, Listed) == WithPrefix(a, Listed) + WithPrefix(b, Listed)
    ensures Silent(a + b)
  {
    WithPrefixAppend(a, b, Head);
    WithPrefixAppend(a, b, Listed);
    SilentAppend(a, b);
  }

  function Intro(): seq<string> {
    ["# HBase Schema Update Script", "#", "# Summary:", "#"]
  }

  lemma SummaryParts(cs: seq<Change>)
    ensures SummaryLines(cs) ==
      Intro() + Group("Create", OfKind(cs, Create)) + ["#"] + AlterGroup(OfKind(cs, Alter)) + ["#"]
      + Group("Drop", OfKind(cs, Drop)) + ["#"] + Group("Ignore", OfKind(cs, Ignore))
  {
  }

  /** Four groups between separators: one head each. */
  lemma HeadsOfGroups(p: string, intro: seq<string>, sep: seq<string>,
                      g1: seq<string>, g2: seq<string>, g3: seq<string>, g4: seq<string>,
                      h1: string, h2: string, h3: string, h4: string)
    requires WithPrefix(intro, p) == [] && WithPrefix(sep, p) == []
    requires WithPrefix(g1, p) == [h1] && WithPrefix(g2, p) == [h2]
    requires WithPrefix(g3, p) == [h3] && WithPrefix(g4, p) == [h4]
    ensures WithPrefix(intro + g1 + sep + g2 + sep + g3 + sep + g4, p) == [h1, h2, h3, h4]
  {
    ListedOfGroups(p, intro, sep, g1, g2, g3, g4);
    assert [h1] + [h2] + [h3] + [h4] == [h1, h2, h3, h4];
  }

  /** A separator and a group after a run whose prefixed lines are `w`. */
  lemma GroupAfter(x: seq<string>, sep: seq<string>, g: seq<string>, p: string, w: seq<string>)
    requires WithPrefix(x, p) == w && WithPrefix(sep, p) == []
    ensures WithPrefix(x + sep + g, p) == w + WithPrefix(g, p)
  {
    WithPrefixAppend(x, sep, p);
    WithPrefixAppend(x + sep, g, p);
  }

  /** Four groups between separators: their listed lines, in order. */
  lemma ListedOfGroups(p: string, intro: seq<string>, sep: seq<string>,
                       g1: seq<string>, g2: seq<string>, g3: seq<string>, g4: seq<string>)
    requires WithPrefix(intro, p) == [] && WithPrefix(sep, p) == []
    ensures WithPrefix(intro + g1 + sep + g2 + sep + g3 + sep + g4, p) ==
      WithPrefix(g1, p) + WithPrefix(g2, p) + WithPrefix(g3, p) + WithPrefix(g4, p)
  {
    var w1, w2, w3 := WithPrefix(g1, p), WithPrefix(g2, p), WithPrefix(g3, p);
    WithPrefixAppend(intro, g1, p);
    GroupAfter(intro + g1, sep, g2, p, w1);
    GroupAfter(intro + g1 + sep + g2, sep, g3, p, w1 + w2);
    GroupAfter(intro + g1 + sep + g2 + sep + g3, sep, g4, p, w1 + w2 + w3);
  }

  lemma SummaryHeads(cs: seq<Change>)
    ensures WithPrefix(SummaryLines(cs), Head) == [
      SummaryLine("Create", |OfKind(cs, Create)|), SummaryLine("Alter", |OfKind(cs, Alter)|),
      SummaryLine("Drop", |OfKind(cs, Drop)|), SummaryLine("Ignore", |OfKind(cs, Ignore)|)]
  {
    SeparatorShape(Intro());
    SeparatorShape(["#"]);
    GroupShape("Create", OfKind(cs, Create));
    AlterGroupShape(OfKind(cs, Alter));
    GroupShape("Drop", OfKind(cs, Drop));
    GroupShape("Ignore", OfKind(cs, Ignore));
    SummaryParts(cs);
    HeadsOfGroups(Head, Intro(), ["#"],
      Group("Create", OfKind(cs, Create)), AlterGroup(OfKind(cs, Alter)),
      Group("Drop", OfKind(cs, Drop)), Group("Ignore", OfKind(cs, Ignore)),
      SummaryLine("Create", |OfKind(cs, Create)|), SummaryLine("Alter", |OfKind(cs, Alter)|),
      SummaryLine("Drop", |OfKind(cs, Drop)|), SummaryLine("Ignore", |OfKind(cs, Ignore)|));
  }

  lemma SummaryListed(cs: seq<Change>)
    ensures WithPrefix(SummaryLines(cs), Listed) ==
      Names(OfKind(cs, Create)) + AlterEntries(OfKind(cs, Alter))
      + Names(OfKind(cs, Drop)) + Names(OfKind(cs, Ignore))
  {
    SeparatorShape(Intro());
    SeparatorShape(["#"]);
    GroupShape("Create", OfKind(cs, Create));
    AlterGroupShape(OfKind(cs, Alter));
    GroupShape("Drop", OfKind(cs, Drop));
    GroupShape("Ignore", OfKind(cs, Ignore));
    SummaryParts(cs);
    ListedOfGroups(Listed, Intro(), ["#"],
      Group("Create", OfKind(cs, Create)), AlterGroup(OfKind(cs, Alter)),
      Group("Drop", OfKind(cs, Drop)), Group("Ignore", OfKind(cs, Ignore)));
  }

  lemma SummarySilent(cs: seq<Change>)
    ensures Silent(SummaryLines(cs))
  {
    var g1, g2 := Group("Create", OfKind(cs, Create)), AlterGroup(OfKind(cs, Alter));
    var g3, g4 := Group("Drop", OfKind(cs, Drop)), Group("Ignore", OfKind(cs, Ignore));
    SeparatorShape(Intro());
    SeparatorShape(["#"]);
    GroupShape("Create", OfKind(cs, Create));
    AlterGroupShape(OfKind(cs, Alter));
    GroupShape("Drop", OfKind(cs, Drop));
    GroupShape("Ignore", OfKind(cs, Ignore));
    SilentAppend(Intro(), g1);
    SilentAppend(Intro() + g1, ["#"]);
    SilentAppend(Intro() + g1 + ["#"], g2);
    SilentAppend(Intro() + g1 + ["#"] + g2, ["#"]);
    SilentAppend(Intro() + g1 + ["#"] + g2 + ["#"], g3);
    SilentAppend(Intro() + g1 + ["#"] + g2 + ["#"] + g3, ["#"]);
    SilentAppend(Intro() + g1 + ["#"] + g2 + ["#"] + g3 + ["#"], g4);
    SummaryParts(cs);
  }

  /** The summary gives the four groups in the order create, alter, drop,
      ignore, with counts adding up to the number of changes; the listed lines
      are the created tables, then each altered table with its notes, then
      the dropped and the ignored tables, each group in input order. */
  lemma HeaderSummary(cs: seq<Change>)
    ensures WithPrefix(SummaryLines(cs), Head) == [
      SummaryLine("Create", |OfKind(cs, Create)|), SummaryLine("Alter", |OfKind(cs, Alter)|),
      SummaryLine("Drop", |OfKind(cs, Drop)|), SummaryLine("Ignore", |OfKind(cs, Ignore)|)]
    ensures WithPrefix(SummaryLines(cs), Listed) ==
      Names(OfKind(cs, Create)) + AlterEntries(OfKind(cs, Alter))
      + Names(OfKind(cs, Drop)) + Names(OfKind(cs, Ignore))
    ensures |OfKind(cs, Create)| + |OfKind(cs, Alter)| + |OfKind(cs, Drop)| + |OfKind(cs, Ignore)| == |cs|
  {
    OfKindPartition(cs);
    SummaryHeads(cs);
    SummaryListed(cs);
  }

  // ---------------------------------------------------------------------------
  // Header: initialization and the `compare` helper
  // ---------------------------------------------------------------------------

  function Import(cls: string): string {
    "import org.apache.hadoop.hbase." + cls
  }

  function Initialization(): seq<string> {
    [ Rule(), "", Rule(), "# Initialization", Rule(),
      "include Java",
      Import("HBaseConfiguration"), Import("HColumnDescriptor"), Import("HConstants"),
      Import("HTableDescriptor"), Import("client.HBaseAdmin"), Import("client.HTable"),
      Import("util.Bytes"),
      "",
      "conf = HBaseConfiguration.new",
      "admin = HBaseAdmin.new(conf)",
      "preErrors = Array.new",
      "preWarnings = Array.new",
      "postErrors = Array.new",
      "",
      Rule(), "# Utility methods", Rule(), "" ]
  }

  lemma InitializationSilent()
    ensures Silent(Initialization())
  {
    var ls := Initialization();
    forall i | 0 <= i < |ls|
      ensures ls[i] == "" || Comment(ls[i]) || TopLevel(ls[i])
    {
      if 6 <= i < 13 {
        assert ls[i][0] == 'i' && ls[i][1] == 'm';
      }
    }
    SilentLines(ls);
  }

  /** The message the helper records when a property differs. */
  const MismatchMessage: string :=
    "\"Object '#{obj.getNameAsString()}', " + "which is targeted for " + "#{action} by this script, " + "should have had a value " + "of \\\"#{val}\\\" for #{attr}, " + "but it was \\\"#{obj.getValue(attr)}\\\" " + "instead.\\n\""

  const CompareSignature: string := "compare(errs, obj, action, " + "attr, val)"

  const CompareCondition: string := "(obj.getValue(attr).to_s " + "!= val)"

  /** The Ruby `compare` helper every property comparison calls: it records
      into the collection it is given. */
  function CompareHelper(): seq<string> {
    [ "def " + CompareSignature,
      "    if " + CompareCondition,
      "        errs << " + MismatchMessage,
      "    end",
      "end",
      "" ]
  }

  lemma MismatchLineQuiet()
    ensures Quiet("        errs << " + MismatchMessage)
  {
    var l := "        errs << " + MismatchMessage;
    assert l[..8] == "        " && l[8] == 'e' && l[9] == 'r' && |l| > 12;
    QuietAt(l, 8, 4);
  }

  /** A `def` whose body is one `if` around a plain line, then an empty line. */
  lemma DefIfShape(d: string, c: string, m: string)
    requires OpensBlock(d) && OpensBlock(c) && Plain(m)
    ensures Balanced([d, c, m, "    end", "end", ""])
  {
    ClosesEnd("    ");
    assert "    " + "end" == "    end";
    EndQuietParts();
    NestedBlocks(d, c, m, "    end", "end", "");
  }

  /** An `if` inside a `def`, each closed, then a plain line. */
  lemma NestedBlocks(d: string, c: string, m: string, e1: string, e2: string, z: string)
    requires OpensBlock(d) && OpensBlock(c) && Plain(m)
    requires ClosesBlock(e1) && ClosesBlock(e2) && Plain(z)
    ensures Balanced([d, c, m, e1, e2, z])
  {
    BlockOfOne(c, m, e1);
    BlockOfThree(d, c, m, e1, e2);
    BalancedPlain([z]);
    BalancedAppend([d, c, m, e1, e2], [z]);
    assert [d, c, m, e1, e2] + [z] == [d, c, m, e1, e2, z];
  }

  lemma CompareHelperBalanced()
    ensures Balanced(CompareHelper())
  {
    MismatchLineQuiet();
    OpensIf("    ", CompareCondition);
    assert "    " + "if " + CompareCondition == "    if " + CompareCondition;
    OpensDef("", CompareSignature);
    assert "" + "def " + CompareSignature == "def " + CompareSignature;
    DefIfShape("def " + CompareSignature, "    if " + CompareCondition, "        errs << " + MismatchMessage);
  }

  lemma CompareHelperInert()
    ensures NoGate(CompareHelper()) && forall c :: NeverRecords(CompareHelper(), c)
  {
    var h := CompareHelper();
    assert GateOpen[0] == 'i';
    forall j | 0 <= j < |h|
      ensures h[j] != GateOpen && forall c :: !Records(h[j], c)
    {
      if j == 0 {
        assert h[j][0] == 'd';
        RecordsNothing(h[j], 0);
      } else if j == 2 {
        MismatchLineQuiet();
      } else if j == 1 || j == 3 {
        assert h[j][0] == ' ' && h[j][4] != 'p' && h[j][4] != 'c';
        RecordsNothing(h[j], 4);
      } else {
        RecordsNothing(h[j], 0);
      }
    }
  }

  lemma CompareHelperSilent()
    ensures Silent(CompareHelper())
  {
    CompareHelperBalanced();
    CompareHelperInert();
  }

  /** `scriptHeaders`. */
  function Headers(cs: seq<Change>): seq<string> {
    [Rule()] + SummaryLines(cs) + Initialization() + CompareHelper()
  }

  lemma HeadersSilent(cs: seq<Change>)
    ensures Silent(Headers(cs))
  {
    SilentLines([Rule()]);
    SummarySilent(cs);
    InitializationSilent();
    CompareHelperSilent();
    SilentAppend([Rule()], SummaryLines(cs));
    SilentAppend([Rule()] + SummaryLines(cs), Initialization());
    SilentAppend([Rule()] + SummaryLines(cs) + Initialization(), CompareHelper());
  }

  // ---------------------------------------------------------------------------
  // The abort gate closing pre-validation
  // ---------------------------------------------------------------------------

  /** Prints every message of a collection, each behind its label. */
  function PrintAll(collection: string, tag: string): string {
    "print \"#{" + collection + ".collect{|msg| \"" + tag + ": \" + msg}}\""
  }

  const GateComment: string := "# If any pre-validations " + "had errors, report them " + "and exit the script."
  const ErrorsSummary: string :=
    "    " + Mutation.Puts("There were #{preErrors.length} " + "error(s) and #{preWarnings.length} "
                          + "warning(s) during table " + "pre-validation:")
  const PrintErrors: string := "    " + PrintAll("preErrors", "Error")
  const PrintWarnings: string := "    " + PrintAll("preWarnings", "Warning")
  const GateElsif: string := "elsif " + "(preWarnings.length > 0)"
  const WarningsSummary: string :=
    "    " + Mutation.Puts("Pre-validations successful " + "with #{preWarnings.length} " + "warnings:")
  const CleanSummary: string := "    " + Mutation.Puts("Pre-validations successful.")

  /** Inside the gate's `if`: report everything, then raise and exit. */
  function AbortLines(): seq<string> {
    [ErrorsSummary, PrintErrors, PrintWarnings, "    raise", "    exit"]
  }

  /** The `elsif` and `else` arms: report the warnings, if any, and carry on. */
  function ElseLines(): seq<string> {
    [GateElsif, WarningsSummary, PrintWarnings, "else", CleanSummary]
  }

  function GateBody(): seq<string> {
    AbortLines() + ElseLines()
  }

  /** Raise and exit when pre-validation recorded errors; otherwise report
      the warnings, if any, and carry on. */
  function Gate(): seq<string> {
    ["", GateComment, GateOpen] + GateBody() + ["end", ""]
  }

  /** `print` lines report the collections; they do not record into them. */
  lemma PrintQuiet(collection: string, tag: string)
    ensures Quiet("    " + PrintAll(collection, tag))
  {
    var l := "    " + PrintAll(collection, tag);
    assert l[..4] == "    " && l[4] == 'p' && l[5] == 'r' && l[6] == 'i' && |l| > 7;
    PlainAt(l, 4);
    NotGateAt(l, 4);
    NotBindingAt(l);
    forall c
      ensures !Records(l, c)
    {
      var n := CollectionName(c);
      var direct := "    " + n + " << ";
      var viaCompare := "    compare(" + n + ", ";
      assert direct[6] == n[2] && n[2] != 'i';
      assert viaCompare[6] == 'm';
      NotStartsWith(l, direct, 6);
      NotStartsWith(l, viaCompare, 6);
    }
  }

  lemma IndentedPutsQuiet(msg: string)
    ensures Quiet("    " + Mutation.Puts(msg))
  {
    Mutation.PutsLines(msg);
    IndentedQuiet("    " + Mutation.Puts(msg));
  }

  lemma AbortLinesQuiet()
    ensures AllQuiet(AbortLines())
  {
    IndentedPutsQuiet("There were #{preErrors.length} " + "error(s) and #{preWarnings.length} "
                      + "warning(s) during table " + "pre-validation:");
    PrintQuiet("preErrors", "Error");
    PrintQuiet("preWarnings", "Warning");
    assert "    raise"[..5] == "    r" && "    exit"[..6] == "    ex";
    IndentedQuiet("    raise");
    IndentedQuiet("    exit");
    QuietFive(ErrorsSummary, PrintErrors, PrintWarnings, "    raise", "    exit");
  }

  lemma ElseLinesQuiet()
    ensures AllQuiet(ElseLines())
  {
    assert GateElsif[0] == 'e' && |GateElsif| > 3;
    TopLevelQuiet(GateElsif);
    IndentedPutsQuiet("Pre-validations successful " + "with #{preWarnings.length} " + "warnings:");
    PrintQuiet("preWarnings", "Warning");
    assert "else"[0] == 'e' && |"else"| > 3;
    TopLevelQuiet("else");
    IndentedPutsQuiet("Pre-validations successful.");
    QuietFive(GateElsif, WarningsSummary, PrintWarnings, "else", CleanSummary);
  }

  /** The gate's `if` opens a block and is neither a binding nor a record. */
  lemma GateOpenLine()
    ensures OpensBlock(GateOpen) && !IsBinding(GateOpen) && forall c :: !Records(GateOpen, c)
  {
    OpensIf("", "(preErrors.length > 0)");
    assert "" + "if " == "if ";
    GateOpenInert();
  }

  lemma GateOpenInert()
    ensures !IsBinding(GateOpen) && forall c :: !Records(GateOpen, c)
  {
    assert |GateOpen| > 5 && GateOpen[0] == 'i';
    RecordsNothing(GateOpen, 0);
    NotBindingAt(GateOpen);
  }

  lemma GateCommentQuiet()
    ensures Quiet(GateComment)
  {
    assert |GateComment| > 3 && GateComment[0] == '#';
    TopLevelQuiet(GateComment);
  }

  lemma GateBodyAt()
    ensures var body := GateBody();
      |body| == 10 && body[3] == "    raise" && body[4] == "    exit"
  {
  }

  /** What a gate-shaped run needs of its lines: quiet lines around an `if`
      line and its closing `end`. */
  predicate GateForm(gt: seq<string>, a: string, b: string, body: seq<string>, e: string, f: string) {
    && gt == [a, b, GateOpen] + body + [e, f]
    && Quiet(a) && Quiet(b) && Quiet(f) && AllQuiet(body) && |body| == 10
    && body[3] == "    raise" && body[4] == "    exit"
    && OpensBlock(GateOpen) && !IsBinding(GateOpen) && (forall c :: !Records(GateOpen, c))
    && ClosesBlock(e) && Inert(e)
  }

  lemma GateFormOnce(gt: seq<string>, a: string, b: string, body: seq<string>, e: string, f: string)
    requires GateForm(gt, a, b, body, e, f)
    ensures OccursOnlyAt(gt, GateOpen, 2)
  {
    forall i | 0 <= i < |gt| && i != 2
      ensures gt[i] != GateOpen
    {
      if 3 <= i < 13 {
        assert gt[i] == body[i - 3];
      }
    }
  }

  lemma GateFormBlock(gt: seq<string>, a: string, b: string, body: seq<string>, e: string, f: string)
    requires GateForm(gt, a, b, body, e, f)
    ensures GateBlockShape(gt)
  {
    forall i | 3 <= i < 8
      ensures Plain(gt[i])
    {
      assert gt[i] == body[i - 3];
    }
  }

  lemma GateFormBalanced(gt: seq<string>, a: string, b: string, body: seq<string>, e: string, f: string)
    requires GateForm(gt, a, b, body, e, f)
    ensures Balanced(gt)
  {
    AllQuietBalanced(body);
    BalancedBlock(GateOpen, body, e);
    BalancedPlain([a, b]);
    BalancedPlain([f]);
    assert gt == [a, b] + ([GateOpen] + body + [e]) + [f];
    BalancedAppend([a, b], [GateOpen] + body + [e]);
    BalancedAppend([a, b] + ([GateOpen] + body + [e]), [f]);
  }

  lemma GateFormRecords(gt: seq<string>, a: string, b: string, body: seq<string>, e: string, f: string)
    requires GateForm(gt, a, b, body, e, f)
    ensures forall c :: NeverRecords(gt, c)
  {
    forall c, i | 0 <= i < |gt|
      ensures !Records(gt[i], c)
    {
      if 3 <= i < 13 {
        assert gt[i] == body[i - 3];
      }
    }
  }

  lemma GateFormShaped(gt: seq<string>, a: string, b: string, body: seq<string>, e: string, f: string)
    requires GateForm(gt, a, b, body, e, f) && GateArms(gt)
    ensures GateShaped(gt)
  {
    GateFormOnce(gt, a, b, body, e, f);
    GateFormBlock(gt, a, b, body, e, f);
    GateFormBalanced(gt, a, b, body, e, f);
    GateFormRecords(gt, a, b, body, e, f);
  }

  lemma GateIsForm()
    ensures GateForm(Gate(), "", GateComment, GateBody(), "end", "")
  {
    AbortLinesQuiet();
    ElseLinesQuiet();
    QuietAppend(AbortLines(), ElseLines());
    GateBodyAt();
    GateOpenLine();
    EndQuietParts();
    GateCommentQuiet();
  }

  /** `raise` or `exit`: the end of the gate's first arm. */
  predicate Halts(l: string) {
    l == "    raise" || l == "    exit"
  }

  predicate NoHalt(ls: seq<string>) {
    forall l :: l in ls ==> !Halts(l)
  }

  /** Four spaces, then `puts` or `print`: a report line of one of the arms. */
  lemma ArmLine(l: string)
    requires |l| > 4 && l[..4] == "    " && l[4] == 'p'
    ensures !Branch(l) && !Halts(l)
  {
    forall i | 0 <= i < 4
      ensures l[i] == ' '
    {
      assert l[i] == l[..4][i];
    }
    NotBranchAt(l, 4);
  }

  /** The gate's arms: no `elsif` or `else` comes between its `if` (line 2)
      and its `raise` (line 6), so `raise` and `exit` close the first arm,
      the one taken when pre-validation recorded errors; the `elsif` arm
      starts right after `exit`; and no other line of the gate raises or
      exits. */
  predicate GateArms(gt: seq<string>) {
    && |gt| == 15
    && !Branch(gt[3]) && !Branch(gt[4]) && !Branch(gt[5])
    && gt[6] == "    raise" && gt[7] == "    exit"
    && gt[8] == GateElsif && Branch(GateElsif)
    && NoHalt(gt[..6]) && NoHalt(gt[8..])
  }

  /** The arms facts for any gate-like run: a three-line head, an abort arm
      of three report lines then `raise` and `exit`, an arm run that starts
      with the gate's `elsif`, and a two-line tail. */
  lemma ArmsOf(gt: seq<string>, h: seq<string>, ab: seq<string>, el: seq<string>, t: seq<string>)
    requires gt == h + (ab + el) + t && |h| == 3 && |ab| == 5 && |el| == 5 && |t| == 2
    requires !Branch(ab[0]) && !Branch(ab[1]) && !Branch(ab[2])
    requires !Halts(ab[0]) && !Halts(ab[1]) && !Halts(ab[2])
    requires ab[3] == "    raise" && ab[4] == "    exit"
    requires el[0] == GateElsif && Branch(GateElsif)
    requires NoHalt(h) && NoHalt(el) && NoHalt(t)
    ensures GateArms(gt)
  {
    assert gt[3] == ab[0] && gt[4] == ab[1] && gt[5] == ab[2];
    assert gt[6] == ab[3] && gt[7] == ab[4] && gt[8] == el[0];
    assert gt[..6] == h + [ab[0], ab[1], ab[2]];
    assert gt[8..] == el + t;
  }

  lemma AbortArm()
    ensures var ab := AbortLines();
      && !Branch(ab[0]) && !Branch(ab[1]) && !Branch(ab[2])
      && !Halts(ab[0]) && !Halts(ab[1]) && !Halts(ab[2])
      && ab[3] == "    raise" && ab[4] == "    exit"
  {
    assert ErrorsSummary[..4] == "    " && ErrorsSummary[4] == 'p';
    assert PrintErrors[..4] == "    " && PrintErrors[4] == 'p';
    assert PrintWarnings[..4] == "    " && PrintWarnings[4] == 'p';
    ArmLine(ErrorsSummary);
    ArmLine(PrintErrors);
    ArmLine(PrintWarnings);
  }

  lemma ElseArm()
    ensures ElseLines()[0] == GateElsif && Branch(GateElsif) && NoHalt(ElseLines())
  {
    assert WarningsSummary[..4] == "    " && WarningsSummary[4] == 'p';
    assert PrintWarnings[..4] == "    " && PrintWarnings[4] == 'p';
    assert CleanSummary[..4] == "    " && CleanSummary[4] == 'p';
    ArmLine(WarningsSummary);
    ArmLine(PrintWarnings);
    ArmLine(CleanSummary);
    assert GateElsif[0] == 'e';
    ElsifBranch("(preWarnings.length > 0)");
  }

  lemma GateIsArms()
    ensures GateArms(Gate())
  {
    AbortArm();
    ElseArm();
    assert GateComment[0] == '#' && GateOpen[0] == 'i';
    assert NoHalt(["", GateComment, GateOpen]) && NoHalt(["end", ""]);
    ArmsOf(Gate(), ["", GateComment, GateOpen], AbortLines(), ElseLines(), ["end", ""]);
  }

  /** The gate: fifteen lines, its `if` the only one, `raise` and `exit`
      inside it and in its first arm, balanced and recording nothing. */
  lemma GateIsShaped()
    ensures GateShaped(Gate())
  {
    GateIsForm();
    GateIsArms();
    GateFormShaped(Gate(), "", GateComment, GateBody(), "end", "");
  }

  // ---------------------------------------------------------------------------
  // The script
  // ---------------------------------------------------------------------------

  function PreBanner(): seq<string> {
    [ Rule(),
      "# Pre Validation",
      "#",
      "# This step makes sure " + "that the existing schema " + "on the cluster matches " + "what you",
      "# think should be there. " + "It will emit warnings " + "for problems that won't " + "make the",
      "# script fail; it will " + "emit errors and exit if " + "it encounters any problems " + "that",
      "# will make the script fail.",
      Rule() ]
  }

  function ModificationBanner(): seq<string> {
    [ Rule(),
      "# Modifications",
      "#",
      "# This step actually modifies " + "the schema on the cluster.",
      Rule(),
      "" ]
  }

  function PostBanner(): seq<string> {
    [ Rule(),
      "# Post Validation",
      "#",
      "# This step ensures that " + "changes were successful, " + "and that the resulting " + "schema",
      "# on the cluster matches " + "what you want to be there.",
      Rule() ]
  }

  const ModificationsDone: string := Mutation.Puts("Table creations & modifications " + "successful.")

  const PostValidationDone: string := Mutation.Puts("Post-validation successful.")

  /** `scriptPreValidations`: the checks of every change, then the gate. */
  function PreValidations(cs: seq<Change>): seq<string>
    requires AllDereferenceable(cs)
  {
    PreBanner() + Validation.PhaseLines(Validation.Pre, cs) + Gate()
  }

  /** `scriptChanges`: the block of every change, in input order. */
  function Modifications(cs: seq<Change>): seq<string>
    requires AllDereferenceable(cs)
  {
    ModificationBanner() + Mutation.MutationLines(cs) + [ModificationsDone, ""]
  }

  /** `scriptPostValidations`: the checks of every change, with no gate. */
  function PostValidations(cs: seq<Change>): seq<string>
    requires AllDereferenceable(cs)
  {
    PostBanner() + Validation.PhaseLines(Validation.Post, cs) + [PostValidationDone, ""]
  }

  /** `scriptFooters`. */
  function Footers(): seq<string> {
    [Mutation.Puts("Script complete. Share " + "and enjoy."), "exit"]
  }

  /** The lines `generateScript` emits. */
  function ScriptLines(cs: seq<Change>): seq<string>
    requires AllDereferenceable(cs)
  {
    Headers(cs) + PreValidations(cs) + Modifications(cs) + PostValidations(cs) + Footers()
  }

  /** `generateScript`: the lines, each ended by a newline. */
  function GenerateScript(cs: seq<Change>): string
    requires AllDereferenceable(cs)
  {
    Render(ScriptLines(cs))
  }

  // ---------------------------------------------------------------------------
  // Where things sit in the script
  // ---------------------------------------------------------------------------

  /** The script cut into eight runs: the lead (headers and the
      pre-validation banner), the pre-validation checks, the gate, the
      modification banner, the modifications, the interlude (the
      modifications' success message and the post-validation banner), the
      post-validation checks, and the tail (the post-validation success
      message and the footers). */
  datatype Parts = Parts(
    lead: seq<string>, pre: seq<string>, gate: seq<string>, banner: seq<string>,
    mods: seq<string>, interlude: seq<string>, post: seq<string>, tail: seq<string>)

  function Join(p: Parts): seq<string> {
    p.lead + p.pre + p.gate + p.banner + p.mods + p.interlude + p.post + p.tail
  }

  /** The joined runs, split around the gate. */
  lemma JoinAroundGate(p: Parts)
    ensures Join(p) == (p.lead + p.pre) + p.gate + (p.banner + p.mods + p.interlude + p.post + p.tail)
  {
    AroundThird(p.lead, p.pre, p.gate, p.banner, p.mods, p.interlude, p.post, p.tail);
  }

  lemma AroundThird<T>(a: seq<T>, b: seq<T>, c: seq<T>, d: seq<T>, e: seq<T>, f: seq<T>, g: seq<T>, h: seq<T>)
    ensures a + b + c + d + e + f + g + h == (a + b) + c + (d + e + f + g + h)
  {
  }

  /** Line indices of the script's landmarks: each per-change run spans
      `[start, end)`; `gate` is the abort gate's `if`, line 2 of the gate. */
  datatype Layout = Layout(
    preStart: nat, preEnd: nat, gate: nat,
    modStart: nat, modEnd: nat,
    postStart: nat, postEnd: nat)

  function Measure(p: Parts): Layout {
    var preEnd := |p.lead| + |p.pre|;
    var modStart := preEnd + |p.gate| + |p.banner|;
    var modEnd := modStart + |p.mods|;
    var postStart := modEnd + |p.interlude|;
    Layout(|p.lead|, preEnd, preEnd + 2, modStart, modEnd, postStart, postStart + |p.post|)
  }

  function PartsOf(cs: seq<Change>): Parts
    requires AllDereferenceable(cs)
  {
    Parts(Headers(cs) + PreBanner(), Validation.PhaseLines(Validation.Pre, cs), Gate(),
          ModificationBanner(), Mutation.MutationLines(cs), [ModificationsDone, ""] + PostBanner(),
          Validation.PhaseLines(Validation.Post, cs), [PostValidationDone, ""] + Footers())
  }

  function LayoutOf(cs: seq<Change>): Layout
    requires AllDereferenceable(cs)
  {
    Measure(PartsOf(cs))
  }

  /** What the script-level properties need of the runs, whatever their text. */
  predicate Shaped(p: Parts) {
    FixedShaped(p) && GateShaped(p.gate) && RunsShaped(p)
  }

  /** The fixed text around the per-change runs neither opens blocks nor
      gates nor records; the tail ends with `exit`. */
  predicate FixedShaped(p: Parts) {
    && Silent(p.lead) && Silent(p.banner) && Silent(p.interlude) && Silent(p.tail)
    && |p.tail| == 4 && p.tail[0] == PostValidationDone && p.tail[3] == "exit"
  }

  /** The gate: fifteen lines, its `if` at line 2 and only there, `raise` and
      `exit` at lines 6 and 7 in its first arm, balanced, recording nothing. */
  predicate GateShaped(gt: seq<string>) {
    && GateArms(gt)
    && OccursOnlyAt(gt, GateOpen, 2) && GateBlockShape(gt)
    && Balanced(gt) && (forall e :: NeverRecords(gt, e))
  }

  /** The per-change runs: the validation and mutation shapes. */
  predicate RunsShaped(p: Parts) {
    && Silent(p.mods)
    && Balanced(p.pre) && NoGate(p.pre) && NeverRecords(p.pre, PostErrors)
    && Balanced(p.post) && NoGate(p.post) && RecordsOnly(p.post, PreErrors)
  }

  /** The gate's first eight lines: two plain lines, the line opening the
      block, then plain lines. */
  predicate GateBlockShape(gt: seq<string>) {
    && |gt| >= 8 && Plain(gt[0]) && Plain(gt[1]) && OpensBlock(gt[2])
    && forall i :: 3 <= i < 8 ==> Plain(gt[i])
  }

  /** Such a gate opens its block at line 2, and lines 6 and 7 are inside it. */
  lemma GateBlockRun(gt: seq<string>, base: int)
    requires GateBlockShape(gt)
    ensures Run([], gt[..2], base) == []
    ensures Run([], gt[..6], base) == [base + 2]
    ensures Run([], gt[..7], base) == [base + 2]
  {
    RunPlain([], gt[..2], base);
    RunSnoc([], gt[..2], gt[2], base);
    assert gt[..3] == gt[..2] + [gt[2]];
    assert Run([], gt[..3], base) == [base + 2];
    assert gt[..6] == gt[..3] + gt[3..6];
    RunAppend([], gt[..3], gt[3..6], base);
    RunPlain([base + 2], gt[3..6], base + 3);
    assert gt[..7] == gt[..3] + gt[3..7];
    RunAppend([], gt[..3], gt[3..7], base);
    RunPlain([base + 2], gt[3..7], base + 3);
  }

  /** Where each run lands in the joined script. */
  lemma JoinSlices(p: Parts)
    ensures var r := Join(p); var l := Measure(p);
      && l.preStart <= l.preEnd <= l.modStart <= l.modEnd <= l.postStart <= l.postEnd
      && l.postEnd + |p.tail| == |r|
      && r[l.preStart..l.preEnd] == p.pre
      && r[l.modStart..l.modEnd] == p.mods
      && r[l.postStart..l.postEnd] == p.post
      && r[..l.preEnd] == p.lead + p.pre
      && r[..l.modStart] == p.lead + p.pre + p.gate + p.banner
      && r[..l.postStart] == p.lead + p.pre + p.gate + p.banner + p.mods + p.interlude
      && r[..l.postEnd] == p.lead + p.pre + p.gate + p.banner + p.mods + p.interlude + p.post
      && r[l.postEnd..] == p.tail
  {
  }

  /** After balanced text, the open blocks are those of what follows it. */
  lemma RunAfter(x: seq<string>, gt: seq<string>, y: seq<string>, k: nat)
    requires Balanced(x) && k <= |gt|
    ensures OpenBlocks((x + gt + y)[..|x| + k]) == Run([], gt[..k], |x|)
  {
    var r := (x + gt + y)[..|x| + k];
    PrefixInto(x, gt, y, k);
    BalancedPrefixBlocks(r, x, gt[..k]);
  }

  /** Cutting `x + gt + y` inside `gt` keeps all of `x`. */
  lemma PrefixInto<T>(x: seq<T>, gt: seq<T>, y: seq<T>, k: nat)
    requires k <= |gt|
    ensures (x + gt + y)[..|x| + k] == x + gt[..k]
  {
    var r := (x + gt + y)[..|x| + k];
    assert |r| == |x + gt[..k]|;
    forall i | 0 <= i < |r|
      ensures r[i] == (x + gt[..k])[i]
    {
      if i < |x| {
        assert r[i] == x[i];
      } else {
        assert r[i] == gt[i - |x|];
      }
    }
  }

  /** After balanced text, a block that opens at its line 2 and holds lines
      6 and 7 inside it. */
  lemma BlockAfter(x: seq<string>, gt: seq<string>, y: seq<string>)
    requires Balanced(x) && |gt| >= 8
    requires Run([], gt[..2], |x|) == []
    requires Run([], gt[..6], |x|) == [|x| + 2] && Run([], gt[..7], |x|) == [|x| + 2]
    ensures var r := x + gt + y; var g := |x| + 2;
      && OpenBlocks(r[..g]) == []
      && r[g + 4] == gt[6] && OpenBlocks(r[..g + 4]) == [g]
      && r[g + 5] == gt[7] && OpenBlocks(r[..g + 5]) == [g]
  {
    RunAfter(x, gt, y, 2);
    RunAfter(x, gt, y, 6);
    RunAfter(x, gt, y, 7);
  }

  /** The gate's `if` is the only one in the joined script. */
  lemma JoinGateOnce(p: Parts)
    requires NoGate(p.lead) && NoGate(p.pre) && NoGate(p.banner) && NoGate(p.mods)
    requires NoGate(p.interlude) && NoGate(p.post) && NoGate(p.tail)
    requires OccursOnlyAt(p.gate, GateOpen, 2)
    ensures OccursOnlyAt(Join(p), GateOpen, Measure(p).gate)
  {
    var r := Join(p);
    var before, after := p.lead + p.pre, p.banner + p.mods + p.interlude + p.post + p.tail;
    JoinAroundGate(p);
    var g := |before| + 2;
    NoGateAppend(p.lead, p.pre);
    NoGateAppend(p.banner, p.mods);
    NoGateAppend(p.banner + p.mods, p.interlude);
    NoGateAppend(p.banner + p.mods + p.interlude, p.post);
    NoGateAppend(p.banner + p.mods + p.interlude + p.post, p.tail);
    forall i | 0 <= i < |r| && i != g
      ensures r[i] != GateOpen
    {
      if i < |before| {
        assert r[i] == before[i];
      } else if i < |before| + |p.gate| {
        assert r[i] == p.gate[i - |before|];
      } else {
        assert r[i] == after[i - |before| - |p.gate|];
      }
    }
  }

  /** Only the two validation runs record; the post-validation one only into
      `preErrors`. */
  lemma JoinRecords(p: Parts)
    requires Silent(p.lead) && Silent(p.banner) && Silent(p.mods)
    requires Silent(p.interlude) && Silent(p.tail) && forall e :: NeverRecords(p.gate, e)
    requires NeverRecords(p.pre, PostErrors) && RecordsOnly(p.post, PreErrors)
    ensures var r := Join(p); var l := Measure(p);
      forall i, e :: 0 <= i < |r| && Records(r[i], e) ==>
        (l.preStart <= i < l.preEnd && e != PostErrors) || (l.postStart <= i < l.postEnd && e == PreErrors)
  {
    var mid := p.gate + p.banner + p.mods + p.interlude;
    MiddleRecordsNothing(p.gate, p.banner, p.mods, p.interlude);
    JoinMiddle(p, mid);
    RecordsInFive(Join(p), p.lead, p.pre, mid, p.post, p.tail);
  }

  lemma MiddleRecordsNothing(g: seq<string>, b: seq<string>, m: seq<string>, i: seq<string>)
    requires forall e :: NeverRecords(g, e)
    requires Silent(b) && Silent(m) && Silent(i)
    ensures forall e :: NeverRecords(g + b + m + i, e)
  {
    forall e
      ensures NeverRecords(g + b + m + i, e)
    {
      NeverRecordsAppend(g, b, e);
      NeverRecordsAppend(g + b, m, e);
      NeverRecordsAppend(g + b + m, i, e);
    }
  }

  lemma JoinMiddle(p: Parts, mid: seq<string>)
    requires mid == p.gate + p.banner + p.mods + p.interlude
    ensures Join(p) == p.lead + p.pre + mid + p.post + p.tail
  {
    Regroup8(p.lead, p.pre, p.gate, p.banner, p.mods, p.interlude, p.post, p.tail);
  }

  lemma Regroup8<T>(a: seq<T>, b: seq<T>, c: seq<T>, d: seq<T>, e: seq<T>, f: seq<T>, g: seq<T>, h: seq<T>)
    ensures a + b + c + d + e + f + g + h == a + b + (c + d + e + f) + g + h
  {
  }

  /** In five runs of which only the second and fourth record, and those
      only as stated, every record lies in one of those two. */
  lemma RecordsInFive(r: seq<string>, a: seq<string>, b: seq<string>, m: seq<string>, d: seq<string>, f: seq<string>)
    requires r == a + b + m + d + f
    requires forall e :: NeverRecords(a, e)
    requires forall e :: NeverRecords(m, e)
    requires forall e :: NeverRecords(f, e)
    requires NeverRecords(b, PostErrors) && RecordsOnly(d, PreErrors)
    ensures forall i, e :: 0 <= i < |r| && Records(r[i], e) ==>
      (|a| <= i < |a| + |b| && e != PostErrors) || (|a| + |b| + |m| <= i < |a| + |b| + |m| + |d| && e == PreErrors)
  {
    var j, k := |a| + |b|, |a| + |b| + |m| + |d|;
    forall i, e | 0 <= i < |r|
      ensures Records(r[i], e) ==> (|a| <= i < j && e != PostErrors) || (j + |m| <= i < k && e == PreErrors)
    {
      if i < |a| {
        assert r[i] == a[i];
        assert NeverRecords(a, e);
      } else if i < j {
        assert r[i] == b[i - |a|];
      } else if i < j + |m| {
        assert r[i] == m[i - j];
        assert NeverRecords(m, e);
      } else if i < k {
        assert r[i] == d[i - j - |m|];
      } else {
        assert r[i] == f[i - k];
        assert NeverRecords(f, e);
      }
    }
  }

  /** Balanced runs leave nothing open at the run boundaries. */
  lemma JoinTopLevel(p: Parts)
    requires Balanced(p.lead) && Balanced(p.pre) && Balanced(p.gate) && Balanced(p.banner)
    requires Balanced(p.mods) && Balanced(p.interlude) && Balanced(p.post)
    ensures var r := Join(p); var l := Measure(p);
      && OpenBlocks(r[..l.preEnd]) == [] && OpenBlocks(r[..l.modStart]) == []
      && OpenBlocks(r[..l.postStart]) == [] && OpenBlocks(r[..l.postEnd]) == []
  {
    JoinSlices(p);
    var a := p.lead + p.pre;
    var b := a + p.gate + p.banner;
    var c := b + p.mods + p.interlude;
    BalancedAppend(p.lead, p.pre);
    BalancedAppend(a, p.gate);
    BalancedAppend(a + p.gate, p.banner);
    BalancedAppend(b, p.mods);
    BalancedAppend(b + p.mods, p.interlude);
    BalancedAppend(c, p.post);
    BalancedBlocks(a);
    BalancedBlocks(b);
    BalancedBlocks(c);
    BalancedBlocks(c + p.post);
  }

  /** `raise` and `exit` sit inside the gate's block. */
  lemma JoinGateBlock(p: Parts)
    requires Balanced(p.lead) && Balanced(p.pre) && GateBlockShape(p.gate)
    requires p.gate[6] == "    raise" && p.gate[7] == "    exit"
    ensures var r := Join(p); var g := Measure(p).gate;
      && OpenBlocks(r[..g]) == []
      && r[g + 4] == "    raise" && OpenBlocks(r[..g + 4]) == [g]
      && r[g + 5] == "    exit" && OpenBlocks(r[..g + 5]) == [g]
  {
    var before := p.lead + p.pre;
    var after := p.banner + p.mods + p.interlude + p.post + p.tail;
    JoinAroundGate(p);
    BalancedAppend(p.lead, p.pre);
    GateBlockRun(p.gate, |before|);
    BlockAfter(before, p.gate, after);
  }

  /** The gate's arms, where the gate lands in the joined script. */
  lemma JoinGateArms(p: Parts)
    requires GateArms(p.gate)
    ensures var r := Join(p); var l := Measure(p); var g := l.gate;
      && g + 13 <= l.modStart <= |r|
      && (forall i :: g < i < g + 4 ==> !Branch(r[i]))
      && r[g + 6] == GateElsif
      && (forall i :: l.preEnd <= i < g + 13 ==> (Halts(r[i]) <==> i == g + 4 || i == g + 5))
  {
    var before := p.lead + p.pre;
    var after := p.banner + p.mods + p.interlude + p.post + p.tail;
    JoinAroundGate(p);
    ArmsAfter(before, p.gate, after);
  }

  /** A gate's arms, after any text. */
  lemma ArmsAfter(x: seq<string>, gt: seq<string>, y: seq<string>)
    requires GateArms(gt)
    ensures var r := x + gt + y; var g := |x| + 2;
      && (forall i :: g < i < g + 4 ==> !Branch(r[i]))
      && r[g + 6] == GateElsif
      && (forall i :: |x| <= i < g + 13 ==> (Halts(r[i]) <==> i == g + 4 || i == g + 5))
  {
    var r := x + gt + y;
    forall i | |x| <= i < |x| + 15
      ensures r[i] == gt[i - |x|]
    {
    }
  }

  lemma ReadyBoth(cs: seq<Change>)
    requires AllDereferenceable(cs)
    ensures forall i :: 0 <= i < |cs| ==> Validation.Ready(Validation.Pre, cs[i])
    ensures forall i :: 0 <= i < |cs| ==> Validation.Ready(Validation.Post, cs[i])
  {
  }

  lemma PreBannerSilent()
    ensures Silent(PreBanner())
  {
    SilentLines(PreBanner());
  }

  lemma LeadSilent(cs: seq<Change>)
    ensures Silent(Headers(cs) + PreBanner())
  {
    HeadersSilent(cs);
    PreBannerSilent();
    SilentAppend(Headers(cs), PreBanner());
  }

  lemma ModificationBannerSilent()
    ensures Silent(ModificationBanner())
  {
    SilentLines(ModificationBanner());
  }

  lemma InterludeSilent()
    ensures Silent([ModificationsDone, ""] + PostBanner())
  {
    Mutation.PutsLines("Table creations & modifications " + "successful.");
    SilentLines([ModificationsDone, ""]);
    SilentLines(PostBanner());
    SilentAppend([ModificationsDone, ""], PostBanner());
  }

  lemma TailSilent()
    ensures Silent([PostValidationDone, ""] + Footers())
  {
    Mutation.PutsLines("Post-validation successful.");
    Mutation.PutsLines("Script complete. Share " + "and enjoy.");
    assert TopLevel("exit") by {
      assert "exit"[0] == 'e' && |"exit"| == 4;
    }
    SilentLines([PostValidationDone, "", Footers()[0], Footers()[1]]);
    assert [PostValidationDone, ""] + Footers() == [PostValidationDone, "", Footers()[0], Footers()[1]];
  }

  /** The fixed runs around the per-change ones are silent, and the
      per-change runs have the shape the validation and mutation models
      prove. */
  lemma FixedPartsShaped(cs: seq<Change>)
    requires AllDereferenceable(cs)
    ensures FixedShaped(PartsOf(cs))
  {
    LeadSilent(cs);
    ModificationBannerSilent();
    InterludeSilent();
    TailSilent();
  }

  lemma RunPartsShaped(cs: seq<Change>)
    requires AllDereferenceable(cs)
    ensures RunsShaped(PartsOf(cs))
  {
    ReadyBoth(cs);
    Mutation.MutationShape(cs);
    Validation.PhaseShape(Validation.Pre, cs);
    Validation.PhaseShape(Validation.Post, cs);
  }

  lemma PartsShaped(cs: seq<Change>)
    requires AllDereferenceable(cs)
    ensures Shaped(PartsOf(cs))
  {
    FixedPartsShaped(cs);
    GateIsShaped();
    RunPartsShaped(cs);
  }

  lemma Regroup(r: seq<string>, h: seq<string>, pb: seq<string>, pre: seq<string>,
                g: seq<string>, mb: seq<string>, mods: seq<string>, md: seq<string>,
                pob: seq<string>, post: seq<string>, pd: seq<string>, f: seq<string>)
    requires r == h + (pb + pre + g) + (mb + mods + md) + (pob + post + pd) + f
    ensures r == Join(Parts(h + pb, pre, g, mb, mods, md + pob, post, pd + f))
  {
  }

  /** `ScriptLines` is the joined runs of `PartsOf`. */
  lemma ScriptParts(cs: seq<Change>)
    requires AllDereferenceable(cs)
    ensures ScriptLines(cs) == Join(PartsOf(cs))
  {
    Regroup(ScriptLines(cs), Headers(cs), PreBanner(), Validation.PhaseLines(Validation.Pre, cs),
            Gate(), ModificationBanner(), Mutation.MutationLines(cs), [ModificationsDone, ""],
            PostBanner(), Validation.PhaseLines(Validation.Post, cs), [PostValidationDone, ""],
            Footers());
  }

  /** One abort gate in `r`: its `if` at `l.gate` is the only one, it opens
      at top level right after the pre-validation run, `raise` and `exit` are
      inside it and nothing else, with no `elsif` or `else` between the `if`
      and them, the `elsif` arm starts right after them, no other line of
      the gate raises or exits, and the modifications start outside it. */
  predicate OneGate(r: seq<string>, l: Layout) {
    var g := l.gate;
    && OccursOnlyAt(r, GateOpen, g)
    && l.preEnd < g && g + 13 <= l.modStart <= |r|
    && OpenBlocks(r[..g]) == []
    && r[g + 4] == "    raise" && OpenBlocks(r[..g + 4]) == [g]
    && r[g + 5] == "    exit" && OpenBlocks(r[..g + 5]) == [g]
    && (forall i :: g < i < g + 4 ==> !Branch(r[i]))
    && r[g + 6] == GateElsif && Branch(GateElsif)
    && (forall i :: l.preEnd <= i < g + 13 ==> (Halts(r[i]) <==> i == g + 4 || i == g + 5))
    && OpenBlocks(r[..l.modStart]) == []
  }

  /** The gate facts of `SingleGate`, for any well-shaped runs. */
  lemma ShapedGate(r: seq<string>, l: Layout, p: Parts)
    requires r == Join(p) && l == Measure(p) && Shaped(p)
    ensures OneGate(r, l)
  {
    ShapedGateOnce(r, l, p);
    JoinGateBlock(p);
    ShapedGateArms(r, l, p);
    ShapedModsTopLevel(r, l, p);
  }

  lemma ShapedGateOnce(r: seq<string>, l: Layout, p: Parts)
    requires r == Join(p) && l == Measure(p) && Shaped(p)
    ensures OccursOnlyAt(r, GateOpen, l.gate)
  {
    JoinGateOnce(p);
  }

  lemma ShapedGateArms(r: seq<string>, l: Layout, p: Parts)
    requires r == Join(p) && l == Measure(p) && Shaped(p)
    ensures var g := l.gate;
      && g + 13 <= l.modStart
      && (forall i :: g < i < g + 4 ==> !Branch(r[i]))
      && r[g + 6] == GateElsif
      && (forall i :: l.preEnd <= i < g + 13 ==> (Halts(r[i]) <==> i == g + 4 || i == g + 5))
  {
    JoinGateArms(p);
  }

  lemma ShapedModsTopLevel(r: seq<string>, l: Layout, p: Parts)
    requires r == Join(p) && l == Measure(p) && Shaped(p)
    ensures OpenBlocks(r[..l.modStart]) == []
  {
    JoinTopLevel(p);
  }

  /** The recording facts of `RecordsPlacement`, for any well-shaped runs. */
  lemma ShapedRecords(r: seq<string>, l: Layout, p: Parts)
    requires r == Join(p) && l == Measure(p) && Shaped(p)
    ensures && NeverRecords(r, PostErrors)
      && forall i, e :: 0 <= i < |r| && Records(r[i], e) ==>
           (l.preStart <= i < l.preEnd) || (l.postStart <= i < l.postEnd && e == PreErrors)
  {
    JoinRecords(p);
  }

  /** The script runs every change's pre-validation, then every change's
      modification, then every change's post-validation, in the order given,
      and its last line is `exit`. */
  lemma PhaseOrder(cs: seq<Change>)
    requires AllDereferenceable(cs)
    ensures var r := ScriptLines(cs); var l := LayoutOf(cs);
      && l.preStart <= l.preEnd < l.gate < l.modStart <= l.modEnd < l.postStart <= l.postEnd < |r|
      && r[l.preStart..l.preEnd] == Validation.PhaseLines(Validation.Pre, cs)
      && r[l.modStart..l.modEnd] == Mutation.MutationLines(cs)
      && r[l.postStart..l.postEnd] == Validation.PhaseLines(Validation.Post, cs)
      && r[|r| - 1] == "exit"
  {
    var p := PartsOf(cs);
    ScriptParts(cs);
    PartsShaped(cs);
    JoinSlices(p);
    var r := Join(p);
    assert r[|r| - 1] == r[Measure(p).postEnd..][3];
  }

  /** The script has one abort gate, between its pre-validation run and its
      modifications. */
  lemma SingleGate(cs: seq<Change>)
    requires AllDereferenceable(cs)
    ensures OneGate(ScriptLines(cs), LayoutOf(cs))
  {
    ScriptParts(cs);
    PartsShaped(cs);
    ShapedGate(ScriptLines(cs), LayoutOf(cs), PartsOf(cs));
  }

  /** Only the validation runs record results, and nothing ever records into
      `postErrors`: pre-validation records errors and warnings, and
      post-validation records only into `preErrors`. */
  lemma RecordsPlacement(cs: seq<Change>)
    requires AllDereferenceable(cs)
    ensures var r := ScriptLines(cs); var l := LayoutOf(cs);
      && NeverRecords(r, PostErrors)
      && forall i, e :: 0 <= i < |r| && Records(r[i], e) ==>
           (l.preStart <= i < l.preEnd) || (l.postStart <= i < l.postEnd && e == PreErrors)
  {
    ScriptParts(cs);
    PartsShaped(cs);
    ShapedRecords(ScriptLines(cs), LayoutOf(cs), PartsOf(cs));
  }

  /** Post-validation is not inside any block: it runs whenever the gate has
      let the script through, and is followed by its success message. */
  lemma PostUnconditional(cs: seq<Change>)
    requires AllDereferenceable(cs)
    ensures var r := ScriptLines(cs); var l := LayoutOf(cs);
      && l.postEnd < |r|
      && OpenBlocks(r[..l.postStart]) == [] && OpenBlocks(r[..l.postEnd]) == []
      && r[l.postEnd] == PostValidationDone
  {
    var p := PartsOf(cs);
    ScriptParts(cs);
    PartsShaped(cs);
    JoinSlices(p);
    JoinTopLevel(p);
    assert Join(p)[Measure(p).postEnd] == Join(p)[Measure(p).postEnd..][0];
  }

  /** The generated text ends with the line `exit`. */
  lemma EndsWithExit(cs: seq<Change>)
    requires AllDereferenceable(cs)
    ensures var s := GenerateScript(cs); |s| >= 5 && s[|s| - 5..] == "exit\n"
  {
    var r := ScriptLines(cs);
    PhaseOrder(cs);
    RenderLast(r);
    var s := GenerateScript(cs);
    var front := Render(r[..|r| - 1]);
    assert s == front + "exit\n";
    assert s[|s| - 5..] == s[|front|..];
  }
}
