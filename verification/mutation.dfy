/**
  The mutation emitter: one block of script lines per change, building a
  table descriptor and creating it, fetching and modifying a live one, or
  disabling and deleting one.
 */
module Mutation {
  import opened Schema
  import opened Lines
  import opened Descriptor
  import Validation

  /** A progress message: `puts "<msg>"`. */
  function Puts(msg: string): string {
    "puts \"" + msg + "\""
  }

  lemma PutsLines(msg: string)
    ensures TopLevel(Puts(msg)) && Indented("    " + Puts(msg))
  {
    var l := Puts(msg);
    assert l[0] == 'p' && l[1] == 'u' && |l| > 5;
    var m := "    " + l;
    assert m[4] == 'p' && m[5] == 'u';
  }

  // ---------------------------------------------------------------------------
  // Building a descriptor (create and alter share these lines)
  // ---------------------------------------------------------------------------

  /** What every family-construction line starts with. */
  const FamilyPrefix: string := "cf = HColumnDescriptor.new(\""
  const AddFamily: string := "table.addFamily(cf)"

  function FamilyNew(name: string): string {
    FamilyPrefix + name + "\")"
  }

  /** One family: construct it, set its properties, attach it to `table`. */
  function FamilyBuild(f: FamilyDesc): seq<string> {
    [FamilyNew(f.name)] + PropertyLines(SetValue("cf"), f.props) + [AddFamily]
  }

  function FamiliesBuild(fs: seq<FamilyDesc>): seq<string>
    decreases |fs|
  {
    if fs == [] then [] else FamilyBuild(fs[0]) + FamiliesBuild(fs[1..])
  }

  /** The table's properties, then its families in descriptor order. */
  function Build(t: TableDesc): seq<string> {
    PropertyLines(SetValue("table"), t.props) + FamiliesBuild(t.families)
  }

  const TableSet: string := LineHead(SetValue("table"))
  const FamilySet: string := LineHead(SetValue("cf"))

  /** A line that configures the descriptor being built. */
  predicate BuildLine(l: string) {
    StartsWith(l, TableSet) || StartsWith(l, FamilySet) || StartsWith(l, FamilyPrefix) || l == AddFamily
  }

  /** Configuration lines start with `table.` or `cf` followed by `.` or a space. */
  lemma BuildLineChars(l: string)
    requires BuildLine(l)
    ensures |l| > 5 && ((l[0] == 't' && l[5] == '.') || (l[0] == 'c' && (l[2] == '.' || l[2] == ' ')))
    ensures TopLevel(l)
  {
    assert TableSet[0] == 't' && TableSet[5] == '.' && |TableSet| > 5;
    assert FamilySet[0] == 'c' && FamilySet[2] == '.' && |FamilySet| > 5;
    assert FamilyPrefix[0] == 'c' && FamilyPrefix[2] == ' ' && |FamilyPrefix| > 5;
    if StartsWith(l, TableSet) {
      StartsWithAt(l, TableSet, 0);
      StartsWithAt(l, TableSet, 5);
    } else if StartsWith(l, FamilySet) {
      StartsWithAt(l, FamilySet, 0);
      StartsWithAt(l, FamilySet, 2);
    } else if StartsWith(l, FamilyPrefix) {
      StartsWithAt(l, FamilyPrefix, 0);
      StartsWithAt(l, FamilyPrefix, 2);
    } else {
      assert l[0] == 't' && l[5] == '.';
    }
  }

  predicate AllBuild(ls: seq<string>) {
    forall i :: 0 <= i < |ls| ==> BuildLine(ls[i])
  }

  lemma AllBuildAppend(a: seq<string>, b: seq<string>)
    requires AllBuild(a) && AllBuild(b)
    ensures AllBuild(a + b)
  {
    forall i | 0 <= i < |a + b|
      ensures BuildLine((a + b)[i])
    {
      if i >= |a| {
        assert (a + b)[i] == b[i - |a|];
      }
    }
  }

  /** Property lines aimed at `table` or `cf` configure the descriptor. */
  lemma SetLinesBuild(obj: string, m: map<string, string>)
    requires obj == "table" || obj == "cf"
    ensures AllBuild(PropertyLines(SetValue(obj), m))
  {
  }

  lemma FamilyBuildLines(f: FamilyDesc)
    ensures AllBuild(FamilyBuild(f))
  {
    assert BuildLine(FamilyNew(f.name)) by {
      StartsWithAppend(FamilyPrefix, f.name + "\")");
      assert FamilyNew(f.name) == FamilyPrefix + (f.name + "\")");
    }
    SetLinesBuild("cf", f.props);
    AllBuildAppend([FamilyNew(f.name)], PropertyLines(SetValue("cf"), f.props));
    AllBuildAppend([FamilyNew(f.name)] + PropertyLines(SetValue("cf"), f.props), [AddFamily]);
  }

  lemma {:induction false} FamiliesBuildLines(fs: seq<FamilyDesc>)
    ensures AllBuild(FamiliesBuild(fs))
    decreases |fs|
  {
    if fs != [] {
      FamilyBuildLines(fs[0]);
      FamiliesBuildLines(fs[1..]);
      AllBuildAppend(FamilyBuild(fs[0]), FamiliesBuild(fs[1..]));
    }
  }

  lemma BuildLines(t: TableDesc)
    ensures AllBuild(Build(t))
  {
    SetLinesBuild("table", t.props);
    FamiliesBuildLines(t.families);
    AllBuildAppend(PropertyLines(SetValue("table"), t.props), FamiliesBuild(t.families));
  }

  lemma BuildQuiet(t: TableDesc)
    ensures AllQuiet(Build(t))
  {
    BuildLines(t);
    forall i | 0 <= i < |Build(t)|
      ensures Quiet(Build(t)[i])
    {
      BuildLineChars(Build(t)[i]);
      TopLevelQuiet(Build(t)[i]);
    }
  }

  /** The family names, in descriptor order, as construction lines. */
  function FamilyNews(fs: seq<FamilyDesc>): (r: seq<string>)
    ensures |r| == |fs|
    ensures forall i :: 0 <= i < |fs| ==> r[i] == FamilyNew(fs[i].name)
    decreases |fs|
  {
    if fs == [] then [] else [FamilyNew(fs[0].name)] + FamilyNews(fs[1..])
  }

  lemma SetLineNotFamily(l: string, head: string)
    requires head == TableSet || head == FamilySet
    requires StartsWith(l, head)
    ensures !StartsWith(l, FamilyPrefix)
  {
    assert TableSet[0] == 't' && FamilySet[2] == '.' && |TableSet| > 2 && |FamilySet| > 2;
    assert FamilyPrefix[0] == 'c' && FamilyPrefix[2] == ' ';
    if head == TableSet {
      StartsWithAt(l, head, 0);
      NotStartsWith(l, FamilyPrefix, 0);
    } else {
      StartsWithAt(l, head, 2);
      NotStartsWith(l, FamilyPrefix, 2);
    }
  }

  /** Property lines are not family constructions. */
  lemma SetNotFamily(obj: string, m: map<string, string>)
    requires obj == "table" || obj == "cf"
    ensures WithPrefix(PropertyLines(SetValue(obj), m), FamilyPrefix) == []
  {
    var ps := PropertyLines(SetValue(obj), m);
    forall i | 0 <= i < |ps|
      ensures !StartsWith(ps[i], FamilyPrefix)
    {
      SetLineNotFamily(ps[i], LineHead(SetValue(obj)));
    }
    NoneWithPrefix(ps, FamilyPrefix);
  }

  lemma FamilyBuildNew(f: FamilyDesc)
    ensures WithPrefix(FamilyBuild(f), FamilyPrefix) == [FamilyNew(f.name)]
  {
    var ps := PropertyLines(SetValue("cf"), f.props);
    SetNotFamily("cf", f.props);
    assert AddFamily[0] == 't';
    NotStartsWith(AddFamily, FamilyPrefix, 0);
    assert StartsWith(FamilyNew(f.name), FamilyPrefix) by {
      StartsWithAppend(FamilyPrefix, f.name + "\")");
      assert FamilyNew(f.name) == FamilyPrefix + (f.name + "\")");
    }
    WithPrefixAppend([FamilyNew(f.name)], ps, FamilyPrefix);
    WithPrefixAppend([FamilyNew(f.name)] + ps, [AddFamily], FamilyPrefix);
  }

  /** The families are constructed in descriptor order, each once. */
  lemma {:induction false} FamiliesInOrder(fs: seq<FamilyDesc>)
    ensures WithPrefix(FamiliesBuild(fs), FamilyPrefix) == FamilyNews(fs)
    decreases |fs|
  {
    if fs != [] {
      FamilyBuildNew(fs[0]);
      FamiliesInOrder(fs[1..]);
      WithPrefixAppend(FamilyBuild(fs[0]), FamiliesBuild(fs[1..]), FamilyPrefix);
    }
  }

  lemma BuildFamiliesInOrder(t: TableDesc)
    ensures WithPrefix(Build(t), FamilyPrefix) == FamilyNews(t.families)
  {
    var ps := PropertyLines(SetValue("table"), t.props);
    SetNotFamily("table", t.props);
    FamiliesInOrder(t.families);
    WithPrefixAppend(ps, FamiliesBuild(t.families), FamilyPrefix);
  }

  // ---------------------------------------------------------------------------
  // Create
  // ---------------------------------------------------------------------------

  /** The property asking for a pre-split table, and the split bounds: the
      lowest and the highest row key. */
  const NumRegions: string := "NUMREGIONS"
  const LowestKey: string := "Bytes.toBytes(\"\\x00\")"
  const HighestKey: string := "Bytes.toBytes(\"\\xFF\")"

  const CreatePrefix: string := "admin.createTable("
  const PlainCreate: string := CreatePrefix + "table)"

  /** The head of a pre-split create call, up to the region count. */
  const SplitHead: string := CreatePrefix + "table, " + LowestKey + ", " + HighestKey + ", "

  /** The create call: pre-split over the whole key range into the requested
      number of regions (embedded as is), or plain. */
  function CreateCall(t: TableDesc): string {
    if NumRegions in t.props then SplitHead + t.props[NumRegions] + ")"
    else PlainCreate
  }

  const NewDescriptor: string := "table = " + "HTableDescriptor.new(tablename)"

  function CreateHead(t: TableDesc): seq<string> {
    ["# Create Table: " + t.name, Binding(t.name), NewDescriptor, "#set table properties"]
  }

  const Creating: string := Puts("Creating table " + "'#{tablename}' ... ")
  const Created: string := Puts("Created table " + "'#{tablename}'")

  /** Create: title, binding, a new descriptor configured from the table's
      properties and families, then the create call between two progress
      messages. */
  function CreateBlock(t: TableDesc): seq<string> {
    CreateHead(t) + Build(t) + [Creating, CreateCall(t), Created, ""]
  }

  /** The columns that tell the fixed lines apart. */
  lemma Heads()
    ensures |NewDescriptor| > 5 && NewDescriptor[0] == 't' && NewDescriptor[5] == ' '
    ensures |FetchDescriptor| > 5 && FetchDescriptor[0] == 't' && FetchDescriptor[5] == ' '
    ensures Creating[0] == 'p' && Created[0] == 'p'
    ensures |CreatePrefix| > 6 && CreatePrefix[0] == 'a' && CreatePrefix[6] == 'c'
    ensures |PlainCreate| > 23 && PlainCreate[23] == ')' && |SplitHead| > 23 && SplitHead[23] == ','
    ensures |Disable| > 6 && Disable[0] == 'a' && Disable[6] == 'd'
    ensures |Modify| > 6 && Modify[0] == 'a' && Modify[6] == 'm'
    ensures |Enable| > 6 && Enable[0] == 'a' && Enable[6] == 'e'
  {
  }

  lemma CreateCallShape(t: TableDesc)
    ensures StartsWith(CreateCall(t), CreatePrefix)
    ensures TopLevel(CreateCall(t))
  {
    CreateCallPrefix(t);
    assert |CreatePrefix| > 1 && CreatePrefix[0] == 'a';
    StartsWithAt(CreateCall(t), CreatePrefix, 0);
  }

  lemma CreateCallPrefix(t: TableDesc)
    ensures StartsWith(CreateCall(t), CreatePrefix)
  {
    if NumRegions in t.props {
      var a := CreatePrefix + "table, ";
      StartsWithAppend(CreatePrefix, "table, ");
      StartsWithExtend(a, CreatePrefix, LowestKey);
      StartsWithExtend(a + LowestKey, CreatePrefix, ", ");
      StartsWithExtend(a + LowestKey + ", ", CreatePrefix, HighestKey);
      StartsWithExtend(a + LowestKey + ", " + HighestKey, CreatePrefix, ", ");
      StartsWithExtend(SplitHead, CreatePrefix, t.props[NumRegions]);
      StartsWithExtend(SplitHead + t.props[NumRegions], CreatePrefix, ")");
    } else {
      StartsWithAppend(CreatePrefix, "table)");
    }
  }

  /** The lines before the create call: title, binding, descriptor, comment,
      configuration, first progress message. */
  lemma CreateHeadChars(t: TableDesc)
    ensures var h := CreateHead(t);
      && h[0][0] == '#' && h[1][0] == 't' && |h[1]| > 5 && h[1][5] == 'n' && h[2] == NewDescriptor && h[3][0] == '#'
  {
    Heads();
  }

  /** No line before the create call starts like one. */
  lemma CreateOthers(t: TableDesc)
    ensures forall i :: 0 <= i < |CreateHead(t) + Build(t)| ==> !StartsWith((CreateHead(t) + Build(t))[i], CreatePrefix)
  {
    var h, b := CreateHead(t), Build(t);
    BuildLines(t);
    CreateHeadChars(t);
    assert CreatePrefix[0] == 'a';
    forall i | 0 <= i < |h + b|
      ensures !StartsWith((h + b)[i], CreatePrefix)
    {
      var l := (h + b)[i];
      if i < |h| {
        assert l == h[i];
      } else {
        assert l == b[i - |h|];
        BuildLineChars(l);
      }
      NotStartsWith(l, CreatePrefix, 0);
    }
  }

  /** The create call pre-splits exactly when `NUMREGIONS` is present. */
  lemma CreateCallSplits(t: TableDesc)
    ensures NumRegions in t.props <==> CreateCall(t) != PlainCreate
  {
    if NumRegions in t.props {
      Heads();
      var call := CreateCall(t);
      assert call == SplitHead + (t.props[NumRegions] + ")");
      assert call[23] == SplitHead[23];
    }
  }

  /** The create call is the one line of its kind, and it follows the
      configuration. */
  lemma CreateCallOnce(t: TableDesc)
    ensures var r := CreateBlock(t); var n := |r|;
      && n >= 4 && r[n - 3] == CreateCall(t)
      && WithPrefix(r, CreatePrefix) == [r[n - 3]]
      && (forall i :: 0 <= i < n && BuildLine(r[i]) ==> i < n - 4)
  {
    var hb := CreateHead(t) + Build(t);
    CreateBeforeNone(t, hb);
    CreateLiteralsApart();
    CreateCallShape(t);
    CreateCallNotBuild(t);
    CallOnceAt(CreateBlock(t), hb, Creating, CreateCall(t), Created, "", CreatePrefix);
  }

  /** A block ending in four lines, the second of them the only one with
      prefix `p`, none of them configuring. */
  lemma CallOnceAt(r: seq<string>, hb: seq<string>, x: string, call: string, y: string, z: string, p: string)
    requires r == hb + [x, call, y, z] && WithPrefix(hb, p) == []
    requires !StartsWith(x, p) && StartsWith(call, p) && !StartsWith(y, p) && !StartsWith(z, p)
    requires !BuildLine(x) && !BuildLine(call) && !BuildLine(y) && !BuildLine(z)
    ensures |r| >= 4 && r[|r| - 3] == call
    ensures WithPrefix(r, p) == [r[|r| - 3]]
    ensures forall i :: 0 <= i < |r| && BuildLine(r[i]) ==> i < |r| - 4
  {
    CallOnlyAt(r, hb, x, call, y, z, p);
    TailConfiguresNothing(r, hb, [x, call, y, z]);
  }

  lemma CallOnlyAt(r: seq<string>, hb: seq<string>, x: string, call: string, y: string, z: string, p: string)
    requires r == hb + [x, call, y, z] && WithPrefix(hb, p) == []
    requires !StartsWith(x, p) && StartsWith(call, p) && !StartsWith(y, p) && !StartsWith(z, p)
    ensures |r| >= 4 && r[|r| - 3] == call
    ensures WithPrefix(r, p) == [call]
  {
    NoneWithPrefix([x], p);
    WithPrefixAppend(hb, [x], p);
    NoneWithPrefix([y, z], p);
    SplitFour(r, hb, x, call, y, z);
    WithPrefixOne(r, hb + [x], call, [y, z], p);
  }

  lemma SplitFour<T>(r: seq<T>, hb: seq<T>, x: T, call: T, y: T, z: T)
    requires r == hb + [x, call, y, z]
    ensures r == hb + [x] + [call] + [y, z] && |r| >= 4 && r[|r| - 3] == call
  {
    assert [x, call, y, z] == [x] + [call] + [y, z];
  }

  lemma CreateBeforeNone(t: TableDesc, hb: seq<string>)
    requires hb == CreateHead(t) + Build(t)
    ensures WithPrefix(hb, CreatePrefix) == []
  {
    CreateOthers(t);
    NoneWithPrefix(hb, CreatePrefix);
  }

  lemma CreateLiteralsApart()
    ensures !StartsWith(Creating, CreatePrefix) && !StartsWith(Created, CreatePrefix) && !StartsWith("", CreatePrefix)
    ensures !BuildLine(Creating) && !BuildLine(Created) && !BuildLine("")
  {
    Heads();
    NotStartsWith(Creating, CreatePrefix, 0);
    NotStartsWith(Created, CreatePrefix, 0);
    NotStartsWith("", CreatePrefix, 0);
    forall l | l in [Creating, Created, ""]
      ensures !BuildLine(l)
    {
      if BuildLine(l) {
        BuildLineChars(l);
      }
    }
  }

  lemma CreateCallNotBuild(t: TableDesc)
    ensures !BuildLine(CreateCall(t))
  {
    CreateCallShape(t);
    StartsWithAt(CreateCall(t), CreatePrefix, 0);
    assert CreatePrefix[0] == 'a';
    if BuildLine(CreateCall(t)) {
      BuildLineChars(CreateCall(t));
    }
  }

  lemma TailConfiguresNothing(r: seq<string>, h: seq<string>, tail: seq<string>)
    requires r == h + tail
    requires forall j :: 0 <= j < |tail| ==> !BuildLine(tail[j])
    ensures forall i :: 0 <= i < |r| && BuildLine(r[i]) ==> i < |h|
  {
    forall i | |h| <= i < |r|
      ensures !BuildLine(r[i])
    {
      assert r[i] == tail[i - |h|];
    }
  }

  /** A create block issues exactly one create call, after every line that
      configures the descriptor. The call pre-splits exactly when the table
      has a `NUMREGIONS` property, passing that value as the region count;
      otherwise it is the plain `admin.createTable(table)`. */
  lemma CreateSplitsIffNumRegions(t: TableDesc)
    ensures var r := CreateBlock(t); var n := |r|;
      && n >= 4
      && WithPrefix(r, CreatePrefix) == [r[n - 3]]
      && (forall i :: 0 <= i < n && BuildLine(r[i]) ==> i < n - 4)
      && (NumRegions in t.props <==> r[n - 3] != PlainCreate)
      && (NumRegions in t.props ==> r[n - 3] == SplitHead + t.props[NumRegions] + ")")
  {
    CreateCallOnce(t);
    CreateCallSplits(t);
  }

  lemma CreateDescQuiet()
    ensures AllQuiet([NewDescriptor, "#set table properties"])
  {
    Heads();
    TopLevelQuiet(NewDescriptor);
    TopLevelQuiet("#set table properties");
  }

  lemma CreateTailQuiet(t: TableDesc)
    ensures AllQuiet([Creating, CreateCall(t), Created, ""])
  {
    assert Quiet(Creating) by {
      PutsLines("Creating table " + "'#{tablename}' ... ");
      TopLevelQuiet(Creating);
    }
    assert Quiet(Created) by {
      PutsLines("Created table " + "'#{tablename}'");
      TopLevelQuiet(Created);
    }
    assert Quiet(CreateCall(t)) by {
      CreateCallShape(t);
      TopLevelQuiet(CreateCall(t));
    }
    EmptyQuiet();
  }

  /** All lines but the first two of a create block are quiet. */
  lemma CreateRestQuiet(t: TableDesc)
    ensures AllQuiet([NewDescriptor, "#set table properties"] + Build(t) + [Creating, CreateCall(t), Created, ""])
  {
    var a := [NewDescriptor, "#set table properties"];
    var b := Build(t);
    var c := [Creating, CreateCall(t), Created, ""];
    CreateDescQuiet();
    BuildQuiet(t);
    CreateTailQuiet(t);
    QuietAppend(a, b);
    QuietAppend(a + b, c);
  }

  /** The create block is its title, the binding, then quiet lines. */
  lemma CreateParts(t: TableDesc)
    ensures var r := CreateBlock(t);
      && r == [r[0], Binding(t.name)] + r[2..] && Quiet(r[0]) && AllQuiet(r[2..])
  {
    var r := CreateBlock(t);
    var h := CreateHead(t);
    SplitAfterTwo(r, h, Build(t), [Creating, CreateCall(t), Created, ""]);
    assert h[1] == Binding(t.name) && h[2] == NewDescriptor && h[3] == "#set table properties";
    CreateHeadChars(t);
    TopLevelQuiet(r[0]);
    CreateRestQuiet(t);
  }

  lemma SplitAfterTwo(r: seq<string>, h: seq<string>, b: seq<string>, c: seq<string>)
    requires r == h + b + c && |h| == 4
    ensures r == [r[0], h[1]] + r[2..] && r[0] == h[0]
    ensures r[2..] == [h[2], h[3]] + b + c
  {
    assert h == [h[0], h[1]] + [h[2], h[3]];
  }

  // ---------------------------------------------------------------------------
  // Drop
  // ---------------------------------------------------------------------------

  const EnabledGuard: string := "  if " + "admin.isTableEnabled(tablename)"
  const Disable: string := "admin." + "disableTable(tablename)"
  const Delete: string := "admin." + "deleteTable(tablename)"
  const DisablingForDrop: string := Puts("Disabling table " + "'#{tablename}' prior to " + "dropping it ...")
  const Dropping: string := Puts("Dropping table " + "'#{tablename}' ...")
  const Dropped: string := Puts("Dropped table " + "'#{tablename}'")

  /** Drop: if the table exists, disable it if it is enabled, then delete it. */
  function DropBlock(t: TableDesc): seq<string> {
    [ "# Drop Table: " + t.name, Binding(t.name), NewDescriptor,
      Validation.ExistsGuard,
      EnabledGuard,
      "    " + DisablingForDrop,
      "    " + Disable,
      "  end",
      "    " + Dropping,
      "  " + Delete,
      "end",
      Dropped,
      "" ]
  }

  lemma EnabledGuardLine()
    ensures OpensBlock(EnabledGuard) && Inert(EnabledGuard)
  {
    OpensIf("  ", "admin.isTableEnabled(tablename)");
    assert "  " + "if " + "admin.isTableEnabled(tablename)" == EnabledGuard;
    assert EnabledGuard[0] == ' ' && EnabledGuard[2] == 'i';
    RecordsNothing(EnabledGuard, 2);
    NotStartsWith(EnabledGuard, "tablename = ", 0);
    assert GateOpen[0] == 'i';
  }

  lemma InnerEndLine()
    ensures ClosesBlock("  end") && Inert("  end")
  {
    ClosesEnd("  ");
    assert "  " + "end" == "  end";
    RecordsNothing("  end", 2);
    NotStartsWith("  end", "tablename = ", 0);
    assert GateOpen[0] == 'i';
  }

  /** The lines of a drop block other than its `if`s, `end`s and binding are quiet. */
  lemma DropQuiet(t: TableDesc)
    ensures var r := DropBlock(t);
      && Quiet(r[0]) && Quiet(r[2]) && Quiet(r[5]) && Quiet(r[6]) && Quiet(r[8])
      && Quiet(r[9]) && Quiet(r[11]) && Quiet(r[12])
  {
    var r := DropBlock(t);
    assert Quiet(r[0]) by {
      assert r[0][0] == '#';
      TopLevelQuiet(r[0]);
    }
    assert Quiet(r[2]) by {
      Heads();
      TopLevelQuiet(r[2]);
    }
    assert Quiet(r[5]) by {
      PutsLines("Disabling table " + "'#{tablename}' prior to " + "dropping it ...");
      IndentedQuiet(r[5]);
    }
    assert Quiet(r[6]) by {
      assert r[6][..4] == "    " && r[6][4] == 'a';
      IndentedQuiet(r[6]);
    }
    assert Quiet(r[8]) by {
      PutsLines("Dropping table " + "'#{tablename}' ...");
      IndentedQuiet(r[8]);
    }
    assert Quiet(r[9]) by {
      assert r[9][..2] == "  " && r[9][2] == 'a' && r[9][3] == 'd';
      QuietAt(r[9], 2, 2);
    }
    assert Quiet(r[11]) by {
      PutsLines("Dropped table " + "'#{tablename}'");
      TopLevelQuiet(r[11]);
    }
    EmptyQuiet();
  }

  /** Line `i` of a drop block: the binding at 1, `if`s at 3 and 4, `end`s
      at 7 and 10, and every other line quiet. */
  lemma DropLine(t: TableDesc, i: nat)
    requires i < 13
    ensures var l := DropBlock(t)[i];
      && (i == 1 ==> l == Binding(t.name))
      && (i == 3 || i == 4 ==> OpensBlock(l) && Inert(l))
      && (i == 7 || i == 10 ==> ClosesBlock(l) && Inert(l))
      && (i != 1 && i != 3 && i != 4 && i != 7 && i != 10 ==> Quiet(l))
  {
    var r := DropBlock(t);
    if i == 3 {
      Validation.GuardLines();
    } else if i == 4 {
      EnabledGuardLine();
    } else if i == 7 {
      InnerEndLine();
    } else if i == 10 {
      EndQuietParts();
    } else if i != 1 {
      DropQuiet(t);
    }
  }

  /** Every line of a drop block is flat, and every line but the binding is inert. */
  lemma DropInert(t: TableDesc)
    ensures var r := DropBlock(t);
      && (forall i :: 0 <= i < |r| && i != 1 ==> Inert(r[i]))
      && (forall i :: 0 <= i < |r| && i != 3 && i != 4 && i != 7 && i != 10 ==> FlatLine(r[i]))
  {
    var r := DropBlock(t);
    forall i | 0 <= i < |r|
      ensures i != 1 ==> Inert(r[i])
      ensures i != 3 && i != 4 && i != 7 && i != 10 ==> FlatLine(r[i])
    {
      DropLine(t, i);
      if i == 1 {
        BindingLine(t.name);
      }
    }
  }

  /** What the drop block's nesting depends on: `if`s at 3 and 4, `end`s at
      7 and 10, flat lines everywhere else. */
  predicate DropStructure(r: seq<string>) {
    && |r| == 13
    && OpensBlock(r[3]) && OpensBlock(r[4])
    && ClosesBlock(r[7]) && !OpensBlock(r[7]) && ClosesBlock(r[10]) && !OpensBlock(r[10])
    && forall i :: 0 <= i < 13 && i != 3 && i != 4 && i != 7 && i != 10 ==> FlatLine(r[i])
  }

  lemma DropStructured(t: TableDesc)
    ensures DropStructure(DropBlock(t))
  {
    DropInert(t);
    DropStep(t, 3);
    DropStep(t, 4);
    DropStep(t, 7);
    DropStep(t, 10);
  }

  /** The flat runs between the structural lines. */
  lemma DropFlatParts(r: seq<string>)
    requires DropStructure(r)
    ensures Flat(r[..3]) && Flat(r[5..7]) && Flat(r[8..10]) && Flat(r[11..])
  {
    assert Flat(r[..3]) by {
      assert forall i :: 0 <= i < 3 ==> r[..3][i] == r[i];
    }
    assert Flat(r[5..7]) by {
      assert forall i :: 0 <= i < 2 ==> r[5..7][i] == r[i + 5];
    }
    assert Flat(r[8..10]) by {
      assert forall i :: 0 <= i < 2 ==> r[8..10][i] == r[i + 8];
    }
    assert Flat(r[11..]) by {
      assert forall i :: 0 <= i < 2 ==> r[11..][i] == r[i + 11];
    }
  }

  /** The blocks open after the first `k` lines of a drop block, on top of
      `st`, the block starting at index `base`. */
  function DropOpen(st: seq<int>, base: int, k: nat): seq<int> {
    if k <= 3 then st
    else if k == 4 then st + [base + 3]
    else if k <= 7 then st + [base + 3, base + 4]
    else if k <= 10 then st + [base + 3]
    else st
  }

  /** How line `i` of a drop block moves the stack of open blocks. */
  lemma DropStep(t: TableDesc, i: nat)
    requires i < 13
    ensures var l := DropBlock(t)[i];
      && (i == 3 || i == 4 ==> OpensBlock(l))
      && (i == 7 || i == 10 ==> ClosesBlock(l) && !OpensBlock(l))
      && (i != 3 && i != 4 && i != 7 && i != 10 ==> Plain(l))
  {
    DropLine(t, i);
    if i == 1 {
      BindingLine(t.name);
    }
  }

  lemma {:induction false} DropRun(r: seq<string>, st: seq<int>, base: int, k: nat)
    requires DropStructure(r) && k <= 13
    ensures Run(st, r[..k], base) == DropOpen(st, base, k)
    decreases k
  {
    if k > 0 {
      DropRun(r, st, base, k - 1);
      assert r[..k] == r[..k - 1] + [r[k - 1]];
      RunSnoc(st, r[..k - 1], r[k - 1], base);
      var s := DropOpen(st, base, k - 1);
      if k == 8 || k == 11 {
        assert s[..|s| - 1] == DropOpen(st, base, k);
      }
    }
  }

  /** A drop block deletes inside the existence guard and disables inside the
      enabled guard, before the delete: at the disable call (line 6) the
      blocks opened at lines 3 and 4 are open; at the delete call (line 9)
      only the existence guard is; after the block nothing is left open. */
  lemma DropNesting(t: TableDesc, st: seq<int>, base: int)
    ensures var r := DropBlock(t);
      && r[3] == Validation.ExistsGuard && r[4] == EnabledGuard
      && r[6] == "    " + Disable && r[9] == "  " + Delete
      && Run(st, r[..6], base) == st + [base + 3, base + 4]
      && Run(st, r[..9], base) == st + [base + 3]
      && Run(st, r, base) == st
  {
    DropStructured(t);
    DropRuns(DropBlock(t), st, base);
  }

  lemma DropRuns(r: seq<string>, st: seq<int>, base: int)
    requires DropStructure(r)
    ensures Run(st, r[..6], base) == st + [base + 3, base + 4]
    ensures Run(st, r[..9], base) == st + [base + 3]
    ensures Run(st, r, base) == st
  {
    DropRun(r, st, base, 6);
    DropRun(r, st, base, 9);
    DropRun(r, st, base, 13);
    assert r[..13] == r;
  }

  lemma DropBalanced(t: TableDesc)
    ensures Balanced(DropBlock(t))
  {
    DropStructured(t);
    DropStructureBalanced(DropBlock(t));
  }

  lemma DropStructureBalanced(r: seq<string>)
    requires DropStructure(r)
    ensures Balanced(r)
  {
    DropFlatParts(r);
    var inner := [r[4]] + r[5..7] + [r[7]];
    assert Balanced(inner) by {
      FlatShape(r[5..7]);
      BalancedBlock(r[4], r[5..7], r[7]);
    }
    var outer := [r[3]] + (inner + r[8..10]) + [r[10]];
    assert Balanced(outer) by {
      FlatShape(r[8..10]);
      BalancedAppend(inner, r[8..10]);
      BalancedBlock(r[3], inner + r[8..10], r[10]);
    }
    FlatShape(r[..3]);
    FlatShape(r[11..]);
    BalancedAppend(r[..3], outer);
    BalancedAppend(r[..3] + outer, r[11..]);
    assert r == r[..3] + outer + r[11..];
  }

  // ---------------------------------------------------------------------------
  // Alter
  // ---------------------------------------------------------------------------

  const FetchDescriptor: string := "table = " + "admin.getTableDescriptor(" + "tablename.bytes.to_a)"
  const Modify: string := "admin." + "modifyTable(" + "tablename.bytes.to_a, table)"
  const Enable: string := "admin." + "enableTable(tablename)"

  function AlterHead(t: TableDesc): seq<string> {
    ["# Modify table: " + t.name, Binding(t.name), FetchDescriptor]
  }

  /** The progress messages and calls that take the table offline, modify it
      and bring it back. The last message lacks its closing quote in the
      script as well. */
  function AlterTail(): seq<string> {
    [ Puts("Disabling table " + "'#{tablename}' prior to " + "modification ..."),
      Disable,
      Puts("Modifying table " + "'#{tablename}' ..."),
      Modify,
      Puts("Enabling table " + "'#{tablename}' after " + "modification ..."),
      Enable,
      Puts("Modified table " + "'#{tablename}"),
      "" ]
  }

  /** Alter: fetch the live descriptor, overwrite its properties and families
      from the new one, then disable, modify and re-enable the table. */
  function AlterBlock(t: TableDesc): seq<string> {
    AlterHead(t) + Build(t) + AlterTail()
  }

  lemma AlterTailChars()
    ensures var a := AlterTail();
      && a[0][0] == 'p' && a[2][0] == 'p' && a[4][0] == 'p' && a[6][0] == 'p' && a[7] == ""
      && a[1] == Disable && a[3] == Modify && a[5] == Enable
  {
  }

  lemma AlterTailQuiet()
    ensures AllQuiet(AlterTail())
  {
    var a := AlterTail();
    Heads();
    AlterTailChars();
    PutsLines("Disabling table " + "'#{tablename}' prior to " + "modification ...");
    PutsLines("Modifying table " + "'#{tablename}' ...");
    PutsLines("Enabling table " + "'#{tablename}' after " + "modification ...");
    PutsLines("Modified table " + "'#{tablename}");
    TopLevelQuiet(a[0]);
    TopLevelQuiet(a[2]);
    TopLevelQuiet(a[4]);
    TopLevelQuiet(a[6]);
    TopLevelQuiet(Disable);
    TopLevelQuiet(Modify);
    TopLevelQuiet(Enable);
    EmptyQuiet();
  }

  /** `x` differs from `l` in column `j`. */
  lemma DiffersAt(l: string, x: string, j: nat)
    requires j < |x| && (j >= |l| || l[j] != x[j])
    ensures l != x
  {
  }

  /** Which of the three calls a line of the alter block is, if any. */
  lemma AlterCallAt(t: TableDesc, i: nat)
    requires i < |AlterBlock(t)|
    ensures var r := AlterBlock(t); var n := |r|;
      && (r[i] == Disable <==> i == n - 7)
      && (r[i] == Modify <==> i == n - 5)
      && (r[i] == Enable <==> i == n - 3)
      && (r[i] == FetchDescriptor <==> i == 2)
      && (BuildLine(r[i]) ==> 3 <= i < n - 8)
  {
    var r := AlterBlock(t);
    var n := |r|;
    var h, b, a := AlterHead(t), Build(t), AlterTail();
    assert r == h + b + a;
    Heads();
    AlterTailChars();
    var l := r[i];
    if i < 3 {
      assert l == h[i];
      assert l[0] == '#' || (l[0] == 't' && |l| > 5 && (l[5] == 'n' || l[5] == ' '));
      DiffersAt(l, Disable, 0);
      DiffersAt(l, Modify, 0);
      DiffersAt(l, Enable, 0);
      if i < 2 {
        assert l[0] == '#' || l[5] == 'n';
        DiffersAt(l, FetchDescriptor, if l[0] == '#' then 0 else 5);
      }
      if BuildLine(l) {
        BuildLineChars(l);
      }
    } else if i < n - 8 {
      BuildLines(t);
      assert l == b[i - 3];
      BuildLineChars(l);
      DiffersAt(l, Disable, 0);
      DiffersAt(l, Modify, 0);
      DiffersAt(l, Enable, 0);
      DiffersAt(l, FetchDescriptor, if l[0] == 'c' then 0 else 5);
    } else {
      assert l == a[i - (n - 8)];
      if i == n - 7 {
        DiffersAt(l, Modify, 6);
        DiffersAt(l, Enable, 6);
      } else if i == n - 5 {
        DiffersAt(l, Disable, 6);
        DiffersAt(l, Enable, 6);
      } else if i == n - 3 {
        DiffersAt(l, Disable, 6);
        DiffersAt(l, Modify, 6);
      } else {
        assert l == "" || l[0] == 'p';
        DiffersAt(l, Disable, 0);
        DiffersAt(l, Modify, 0);
        DiffersAt(l, Enable, 0);
      }
      DiffersAt(l, FetchDescriptor, 0);
      if BuildLine(l) {
        BuildLineChars(l);
      }
    }
  }

  /** The alter block takes the table offline, modifies it and brings it
      back, in that order, each call exactly once and after every line that
      configures the descriptor; the families are configured in descriptor
      order. */
  lemma AlterOrder(t: TableDesc)
    ensures var r := AlterBlock(t); var n := |r|;
      && OccursOnlyAt(r, FetchDescriptor, 2)
      && OccursOnlyAt(r, Disable, n - 7)
      && OccursOnlyAt(r, Modify, n - 5)
      && OccursOnlyAt(r, Enable, n - 3)
      && (forall i :: 0 <= i < n && BuildLine(r[i]) ==> 3 <= i < n - 8)
      && r[3..n - 8] == Build(t)
      && WithPrefix(r, FamilyPrefix) == FamilyNews(t.families)
  {
    var r := AlterBlock(t);
    var n := |r|;
    var h, b, a := AlterHead(t), Build(t), AlterTail();
    assert r == h + b + a;
    forall i | 0 <= i < n
      ensures (r[i] == Disable <==> i == n - 7)
      ensures (r[i] == Modify <==> i == n - 5)
      ensures (r[i] == Enable <==> i == n - 3)
      ensures (r[i] == FetchDescriptor <==> i == 2)
      ensures BuildLine(r[i]) ==> 3 <= i < n - 8
    {
      AlterCallAt(t, i);
    }
    assert r[3..n - 8] == b;
    AlterFamilies(t);
  }

  lemma AlterHeadNoFamily(t: TableDesc)
    ensures WithPrefix(AlterHead(t), FamilyPrefix) == []
  {
    var h := AlterHead(t);
    assert h[0][0] == '#' && h[1][0] == 't' && h[2][0] == 't';
    forall i | 0 <= i < |h|
      ensures !StartsWith(h[i], FamilyPrefix)
    {
      NotStartsWith(h[i], FamilyPrefix, 0);
    }
    NoneWithPrefix(h, FamilyPrefix);
  }

  lemma AlterTailNoFamily()
    ensures WithPrefix(AlterTail(), FamilyPrefix) == []
  {
    var a := AlterTail();
    AlterTailChars();
    assert Disable[0] == 'a' && Modify[0] == 'a' && Enable[0] == 'a';
    forall i | 0 <= i < |a|
      ensures !StartsWith(a[i], FamilyPrefix)
    {
      NotStartsWith(a[i], FamilyPrefix, 0);
    }
    NoneWithPrefix(a, FamilyPrefix);
  }

  lemma AlterFamilies(t: TableDesc)
    ensures WithPrefix(AlterBlock(t), FamilyPrefix) == FamilyNews(t.families)
  {
    BuildFamiliesInOrder(t);
    AlterHeadNoFamily(t);
    AlterTailNoFamily();
    WithPrefixMiddle(AlterBlock(t), AlterHead(t), Build(t), AlterTail(), FamilyPrefix);
  }

  /** The alter block is its title, the binding, then quiet lines. */
  lemma AlterParts(t: TableDesc)
    ensures var r := AlterBlock(t);
      && r == [r[0], Binding(t.name)] + r[2..] && Quiet(r[0]) && AllQuiet(r[2..])
  {
    var r := AlterBlock(t);
    var h := AlterHead(t);
    SplitAfterHead(r, h, Build(t), AlterTail());
    assert h[0][0] == '#' && h[1] == Binding(t.name) && h[2] == FetchDescriptor;
    TopLevelQuiet(r[0]);
    AlterRestQuiet(t);
  }

  lemma AlterRestQuiet(t: TableDesc)
    ensures AllQuiet([FetchDescriptor] + Build(t) + AlterTail())
  {
    assert AllQuiet([FetchDescriptor]) by {
      Heads();
      TopLevelQuiet(FetchDescriptor);
    }
    BuildQuiet(t);
    AlterTailQuiet();
    QuietAppend([FetchDescriptor], Build(t));
    QuietAppend([FetchDescriptor] + Build(t), AlterTail());
  }

  lemma SplitAfterHead(r: seq<string>, h: seq<string>, b: seq<string>, c: seq<string>)
    requires r == h + b + c && |h| == 3
    ensures r == [r[0], h[1]] + r[2..] && r[0] == h[0]
    ensures r[2..] == [h[2]] + b + c
  {
    assert h == [h[0], h[1]] + [h[2]];
  }

  /** A title, the binding of `name` and quiet lines: flat, and `tablename`
      holds `name` afterwards. */
  lemma TitledBlock(first: string, name: string, rest: seq<string>)
    requires Quiet(first) && AllQuiet(rest)
    ensures var r := [first, Binding(name)] + rest;
      Flat(r) && LastBinding(r) == Some(Binding(name))
  {
    BindingLine(name);
    QuietFlat(rest);
    FlatAppend([first, Binding(name)], rest);
    LastBindingAppend([first, Binding(name)], rest);
  }

  // ---------------------------------------------------------------------------
  // Dispatch
  // ---------------------------------------------------------------------------

  /** The block for one change: create from the new descriptor, drop the old
      one, alter to the new one; an ignored change emits nothing. */
  function MutationBlock(c: Change): seq<string>
    requires Dereferenceable(c)
  {
    match c.kind
    case Create => CreateBlock(c.newTable.value)
    case Drop => DropBlock(c.oldTable.value)
    case Alter => AlterBlock(c.newTable.value)
    case Ignore => []
  }

  /** What a change's block is about: nothing for an ignored change, else a
      balanced block that neither holds the gate nor records anything and
      leaves `tablename` bound to the descriptor the change type reads. */
  lemma MutationDispatch(c: Change)
    requires Dereferenceable(c)
    ensures var r := MutationBlock(c);
      && (r == [] <==> c.kind == Ignore)
      && Balanced(r) && NoGate(r) && (forall d :: NeverRecords(r, d))
      && (c.kind == Create ==> LastBinding(r) == Some(Binding(c.newTable.value.name)))
      && (c.kind == Alter ==> LastBinding(r) == Some(Binding(c.newTable.value.name)))
      && (c.kind == Drop ==> LastBinding(r) == Some(Binding(c.oldTable.value.name)))
  {
    var r := MutationBlock(c);
    match c.kind
    case Create =>
      var t := c.newTable.value;
      CreateParts(t);
      TitledBlock(r[0], t.name, r[2..]);
      FlatShape(r);
    case Alter =>
      var t := c.newTable.value;
      AlterParts(t);
      TitledBlock(r[0], t.name, r[2..]);
      FlatShape(r);
    case Drop =>
      var t := c.oldTable.value;
      DropBalanced(t);
      DropInert(t);
      DropBinding(t);
    case Ignore =>
  }

  lemma DropBinding(t: TableDesc)
    ensures LastBinding(DropBlock(t)) == Some(Binding(t.name))
  {
    var r := DropBlock(t);
    DropInert(t);
    BindingIsBinding(t.name);
    var rest := r[2..];
    forall i | 0 <= i < |rest|
      ensures !IsBinding(rest[i])
    {
      assert rest[i] == r[i + 2];
    }
    LastBindingAppend(r[..2], rest);
    assert r == r[..2] + rest;
  }

  // ---------------------------------------------------------------------------
  // The mutation phase
  // ---------------------------------------------------------------------------

  /** The blocks of all changes, in input order. */
  function MutationLines(cs: seq<Change>): seq<string>
    requires AllDereferenceable(cs)
    decreases |cs|
  {
    if cs == [] then [] else MutationBlock(cs[0]) + MutationLines(cs[1..])
  }

  lemma {:induction false} MutationLinesAppend(a: seq<Change>, b: seq<Change>)
    requires AllDereferenceable(a) && AllDereferenceable(b)
    ensures AllDereferenceable(a + b)
    ensures MutationLines(a + b) == MutationLines(a) + MutationLines(b)
    decreases |a|
  {
    if a == [] {
      assert a + b == b;
    } else {
      var ab := a + b;
      Validation.TailOfAppend(a, b, ab);
      MutationLinesAppend(a[1..], b);
      Validation.ConsAssoc(MutationLines(ab), MutationLines(a), MutationBlock(a[0]), MutationLines(a[1..]), MutationLines(b));
    }
  }

  /** The mutation phase is balanced, holds no gate and records nothing. */
  lemma {:induction false} MutationShape(cs: seq<Change>)
    requires AllDereferenceable(cs)
    ensures var r := MutationLines(cs);
      Balanced(r) && NoGate(r) && forall d :: NeverRecords(r, d)
    decreases |cs|
  {
    if cs != [] {
      var a, b := MutationBlock(cs[0]), MutationLines(cs[1..]);
      MutationDispatch(cs[0]);
      MutationShape(cs[1..]);
      BalancedAppend(a, b);
      NoGateAppend(a, b);
      forall d
        ensures NeverRecords(a + b, d)
      {
        NeverRecordsAppend(a, b, d);
      }
    }
  }

  /** No line of a drop block starts with `a`. */
  lemma DropColumn0(t: TableDesc, i: nat)
    requires i < 13
    ensures var l := DropBlock(t)[i]; l == [] || l[0] != 'a'
  {
    var l := DropBlock(t)[i];
    if i == 0 || i == 1 || i == 2 {
      assert l[0] == '#' || l[0] == 't';
    } else if i == 3 || i == 10 {
      assert l[0] == 'i' || l[0] == 'e';
    } else if i == 11 {
      assert l[0] == 'p';
    } else if i != 12 {
      assert l[0] == ' ';
    }
  }

  lemma DropNoCreate(t: TableDesc)
    ensures WithPrefix(DropBlock(t), CreatePrefix) == []
  {
    var r := DropBlock(t);
    Heads();
    forall i | 0 <= i < |r|
      ensures !StartsWith(r[i], CreatePrefix)
    {
      DropColumn0(t, i);
      NotStartsWith(r[i], CreatePrefix, 0);
    }
    NoneWithPrefix(r, CreatePrefix);
  }

  lemma AlterNoCreate(t: TableDesc)
    ensures WithPrefix(AlterBlock(t), CreatePrefix) == []
  {
    var r := AlterBlock(t);
    var n := |r|;
    Heads();
    forall i | 0 <= i < n
      ensures !StartsWith(r[i], CreatePrefix)
    {
      AlterCallAt(t, i);
      AlterColumn(t, i);
      if r[i] == Disable || r[i] == Modify || r[i] == Enable {
        NotStartsWith(r[i], CreatePrefix, 6);
      } else {
        NotStartsWith(r[i], CreatePrefix, 0);
      }
    }
    NoneWithPrefix(r, CreatePrefix);
  }

  /** Lines of the alter block other than its three calls do not start with `a`. */
  lemma AlterColumn(t: TableDesc, i: nat)
    requires i < |AlterBlock(t)|
    ensures var r := AlterBlock(t); var n := |r|;
      i != n - 7 && i != n - 5 && i != n - 3 ==> r[i] == [] || r[i][0] != 'a'
  {
    var r := AlterBlock(t);
    var h, b, a := AlterHead(t), Build(t), AlterTail();
    LineOfThree(r, h, b, a, i);
    if i < 3 {
      assert h[0][0] == '#' && h[1][0] == 't' && h[2][0] == 't';
    } else if i < |r| - 8 {
      BuildLines(t);
      BuildLineChars(r[i]);
    } else {
      AlterTailChars();
    }
  }

  /** Where line `i` of a three-part block comes from. */
  lemma LineOfThree(r: seq<string>, h: seq<string>, b: seq<string>, a: seq<string>, i: nat)
    requires r == h + b + a && i < |r|
    ensures i < |h| ==> r[i] == h[i]
    ensures |h| <= i < |h| + |b| ==> r[i] == b[i - |h|]
    ensures |h| + |b| <= i ==> r[i] == a[i - |h| - |b|]
  {
  }

  /** The mutation phase issues one create call per create change. */
  lemma {:induction false} MutationCreates(cs: seq<Change>)
    requires AllDereferenceable(cs)
    ensures |WithPrefix(MutationLines(cs), CreatePrefix)| == |OfKind(cs, Create)|
    decreases |cs|
  {
    if cs != [] {
      var c := cs[0];
      MutationCreates(cs[1..]);
      WithPrefixAppend(MutationBlock(c), MutationLines(cs[1..]), CreatePrefix);
      match c.kind
      case Create => CreateCallOnce(c.newTable.value);
      case Drop => DropNoCreate(c.oldTable.value);
      case Alter => AlterNoCreate(c.newTable.value);
      case Ignore =>
    }
  }
}
