/**
  The checks the script runs before and after the modifications. A check
  demands that a table be absent, be present, or match a descriptor, and
  appends a message to the collection its severity selects whenever the
  cluster disagrees. Which checks a change gets, and with which severity,
  depends on the phase and on the change's type.
 */
module Validation {
  import opened Schema
  import opened Lex
  import opened Escape
  import opened Lines
  import opened Descriptor

  datatype Phase = Pre | Post

  datatype CheckKind = Absence | Presence | StateMatch

  /** One emitted check. `op` names the operation the table is targeted for;
      `fatal` is the scripter's `shouldThrowError`. */
  datatype Check =
    | MustBeAbsent(tableName: string, op: string, fatal: bool)
    | MustBePresent(tableName: string, op: string, fatal: bool)
    | MustMatch(table: TableDesc, op: string, fatal: bool)

  function KindOf(ch: Check): CheckKind {
    match ch
    case MustBeAbsent(_, _, _) => Absence
    case MustBePresent(_, _, _) => Presence
    case MustMatch(_, _, _) => StateMatch
  }

  /** The collection a check reports into: errors abort the script at the
      gate, warnings do not. */
  function Recipient(fatal: bool): (c: Collection)
    ensures c != PostErrors
    ensures fatal <==> c == PreErrors
  {
    if fatal then PreErrors else PreWarnings
  }

  // ---------------------------------------------------------------------------
  // The lines of one check
  // ---------------------------------------------------------------------------

  const ExistsGuard: string := "if " + "admin.tableExists(tablename)"
  const MissingGuard: string := "if " + "!admin.tableExists(tablename)"
  const AlreadyExists: string := "\"Table '#{tablename}' should " + "not already exist, but it does.\\n\""
  const DoesNotExist: string := "\"Table '#{tablename}' should " + "exist, but it does not.\\n\""

  /** `    <collection> << <msg>` */
  function Report(c: Collection, msg: string): string {
    "    " + CollectionName(c) + " << " + msg
  }

  lemma GuardLines()
    ensures OpensBlock(ExistsGuard) && Inert(ExistsGuard)
    ensures OpensBlock(MissingGuard) && Inert(MissingGuard)
  {
    OpensIf("", "admin.tableExists(tablename)");
    OpensIf("", "!admin.tableExists(tablename)");
    assert "" + "if " + "admin.tableExists(tablename)" == ExistsGuard;
    assert "" + "if " + "!admin.tableExists(tablename)" == MissingGuard;
    assert GateOpen[3] == '(';
    assert ExistsGuard[3] == 'a' && MissingGuard[3] == '!';
    RecordsNothing(ExistsGuard, 0);
    RecordsNothing(MissingGuard, 0);
    NotStartsWith(ExistsGuard, "tablename = ", 0);
    NotStartsWith(MissingGuard, "tablename = ", 0);
  }

  /** `scriptVerifyTableAbsent`: reports into `c` when the table exists. */
  function AbsentLines(name: string, c: Collection): (r: seq<string>)
    ensures |r| == 6
  {
    [ "# Table '" + name + "' should not exist",
      Binding(name),
      ExistsGuard,
      Report(c, AlreadyExists),
      "end",
      "" ]
  }

  /** `scriptVerifyTablePresent`: reports into `c` when the table is missing. */
  function PresentLines(name: string, c: Collection): (r: seq<string>)
    ensures |r| == 6
  {
    [ "# Table '" + name + "' should exist",
      Binding(name),
      MissingGuard,
      Report(c, DoesNotExist),
      "end",
      "" ]
  }

  /** The `compare` lines for one property map, reporting into `c`. */
  function CompareLines(c: Collection, obj: string, op: string, m: map<string, string>): seq<string> {
    PropertyLines(Compare(CollectionName(c), obj, op), m)
  }

  /** The line that fetches the live table descriptor. */
  function TableFetch(): seq<string> {
    ["    table = " + "admin.getTableDescriptor(" + "tablename.bytes.to_a)"]
  }

  /** The lines that fetch family `name` from the live table descriptor. */
  function FamilyFetch(name: string): seq<string> {
    [ "    # Column family: " + name,
      "    cfname = \"" + name + "\"",
      "    cf = " + "table.getFamily(cfname.bytes.to_a)" ]
  }

  /** The part of `scriptVerifyTableMatches` for one column family. */
  function FamilyMatchLines(f: FamilyDesc, c: Collection, op: string): seq<string> {
    FamilyFetch(f.name) + CompareLines(c, "cf", op, f.props)
  }

  /** The family parts, in descriptor order. */
  function FamiliesMatchLines(fs: seq<FamilyDesc>, c: Collection, op: string): seq<string>
    decreases |fs|
  {
    if fs == [] then []
    else FamilyMatchLines(fs[0], c, op) + FamiliesMatchLines(fs[1..], c, op)
  }

  function SeverityWord(fatal: bool): string {
    if fatal then "error" else "warn"
  }

  const MatchTail: string := " if it doesn't " + "match the expected definition."

  function MatchComment(name: string, fatal: bool): string {
    "# Table '" + name + "' will " + SeverityWord(fatal) + MatchTail
  }

  /** Inside the guard of a state-match check: fetch the live descriptor, then
      compare the table's properties and each family's, in descriptor order. */
  function MatchBody(t: TableDesc, c: Collection, op: string): seq<string> {
    TableFetch() + CompareLines(c, "table", op, t.props) + FamiliesMatchLines(t.families, c, op)
  }

  /** `scriptVerifyTableMatches`: compares every table and family property
      against the live descriptor. */
  function MatchLines(t: TableDesc, op: string, fatal: bool): seq<string> {
    [MatchComment(t.name, fatal)] + [ExistsGuard] + MatchBody(t, Recipient(fatal), op) + ["end", ""]
  }

  /** The lines of one check. */
  function CheckLines(ch: Check): seq<string> {
    match ch
    case MustBeAbsent(n, _, fatal) => AbsentLines(n, Recipient(fatal))
    case MustBePresent(n, _, fatal) => PresentLines(n, Recipient(fatal))
    case MustMatch(t, op, fatal) => MatchLines(t, op, fatal)
  }

  // ---------------------------------------------------------------------------
  // The shape of one check
  // ---------------------------------------------------------------------------

  /** Every `compare` line records into `c`, and only there. */
  lemma CompareLinesReport(c: Collection, obj: string, op: string, m: map<string, string>)
    ensures var r := CompareLines(c, obj, op, m);
      |r| == |m| && AllReporting(r, c) && forall i :: 0 <= i < |r| ==> Records(r[i], c)
  {
    var r := CompareLines(c, obj, op, m);
    forall i | 0 <= i < |r|
      ensures Reporting(r[i], c) && Records(r[i], c)
    {
      CompareLine(r[i], c);
    }
  }

  lemma FetchQuiet(name: string)
    ensures AllQuiet(TableFetch()) && AllQuiet(FamilyFetch(name))
  {
    AllIndentedQuiet(TableFetch());
    AllIndentedQuiet(FamilyFetch(name));
  }

  lemma {:induction false} FamiliesReport(fs: seq<FamilyDesc>, c: Collection, op: string)
    ensures AllReporting(FamiliesMatchLines(fs, c, op), c)
    decreases |fs|
  {
    if fs != [] {
      var f := fs[0];
      FetchQuiet(f.name);
      QuietReporting(FamilyFetch(f.name), c);
      CompareLinesReport(c, "cf", op, f.props);
      ReportingAppend(FamilyFetch(f.name), CompareLines(c, "cf", op, f.props), c);
      FamiliesReport(fs[1..], c, op);
      ReportingAppend(FamilyMatchLines(f, c, op), FamiliesMatchLines(fs[1..], c, op), c);
    }
  }

  lemma MatchBodyReports(t: TableDesc, c: Collection, op: string)
    ensures AllReporting(MatchBody(t, c, op), c)
  {
    var fetch := TableFetch();
    var compares := CompareLines(c, "table", op, t.props);
    var families := FamiliesMatchLines(t.families, c, op);
    FetchQuiet("");
    QuietReporting(fetch, c);
    CompareLinesReport(c, "table", op, t.props);
    FamiliesReport(t.families, c, op);
    ReportingAppend(fetch, compares, c);
    ReportingAppend(fetch + compares, families, c);
  }

  /** A comment line followed by the binding line: the head of the absence and
      presence checks. */
  lemma BoundHead(comment: string, name: string)
    requires TopLevel(comment)
    ensures var pre := [comment, Binding(name)];
      && (forall i :: 0 <= i < |pre| ==> Plain(pre[i]) && pre[i] != GateOpen && forall d :: !Records(pre[i], d))
      && LastBinding(pre) == Some(Binding(name))
  {
    TopLevelQuiet(comment);
    BindingLine(name);
  }

  /** An absence or presence check: a balanced block that sets `tablename`
      to the table and whose one message line, inside the guard, records
      into `c`. */
  lemma GuardedShape(comment: string, name: string, guard: string, msg: string, c: Collection)
    requires TopLevel(comment) && OpensBlock(guard) && Inert(guard)
    ensures var r := [comment, Binding(name), guard, Report(c, msg), "end", ""];
      && Balanced(r) && NoGate(r) && RecordsOnly(r, c) && Records(r[3], c)
      && LastBinding(r) == Some(Binding(name))
      && r[2] == guard && RecordsUnder(r, 2)
  {
    var pre := [comment, Binding(name)];
    var body := [Report(c, msg)];
    BoundHead(comment, name);
    ReportLine(c, msg);
    assert AllReporting(body, c);
    Frame(pre, guard, body, c);
    SixLines(comment, Binding(name), guard, Report(c, msg), "end", "");
  }

  /** The absence check reports, into `c` only, exactly from inside
      `if admin.tableExists(tablename)`: when the table it binds is there. */
  lemma AbsentShape(name: string, c: Collection)
    ensures var r := AbsentLines(name, c);
      && Balanced(r) && NoGate(r) && RecordsOnly(r, c) && Records(r[3], c)
      && LastBinding(r) == Some(Binding(name))
      && r[2] == ExistsGuard && RecordsUnder(r, 2)
  {
    var comment := "# Table '" + name + "' should not exist";
    GuardLines();
    GuardedShape(comment, name, ExistsGuard, AlreadyExists, c);
  }

  /** The presence check reports, into `c` only, exactly from inside
      `if !admin.tableExists(tablename)`: when the table it binds is missing. */
  lemma PresentShape(name: string, c: Collection)
    ensures var r := PresentLines(name, c);
      && Balanced(r) && NoGate(r) && RecordsOnly(r, c) && Records(r[3], c)
      && LastBinding(r) == Some(Binding(name))
      && r[2] == MissingGuard && RecordsUnder(r, 2)
  {
    var comment := "# Table '" + name + "' should exist";
    GuardLines();
    GuardedShape(comment, name, MissingGuard, DoesNotExist, c);
  }

  /** A state-match check: one balanced block, recording only into the
      collection its severity selects and only from inside
      `if admin.tableExists(tablename)`, that sets no `tablename` of its own
      and so reads the one set before it. */
  lemma MatchShape(t: TableDesc, op: string, fatal: bool)
    ensures var r := MatchLines(t, op, fatal);
      && Balanced(r) && NoGate(r) && RecordsOnly(r, Recipient(fatal))
      && LastBinding(r) == None
      && |r| > 1 && r[1] == ExistsGuard && RecordsUnder(r, 1)
  {
    var c := Recipient(fatal);
    var comment := MatchComment(t.name, fatal);
    TopLevelQuiet(comment);
    MatchBodyReports(t, c, op);
    GuardLines();
    Frame([comment], ExistsGuard, MatchBody(t, c, op), c);
  }

  /** Every check is one balanced block that is not the gate and records
      only into the collection its severity selects. An absence check and a
      state match record only while the table exists, a presence check only
      while it is missing. */
  lemma CheckShape(ch: Check)
    ensures var r := CheckLines(ch);
      && Balanced(r) && NoGate(r) && RecordsOnly(r, Recipient(ch.fatal))
      && LastBinding(r) == (if ch.MustMatch? then None else Some(Binding(ch.tableName)))
      && (ch.MustBeAbsent? ==> |r| > 2 && r[2] == ExistsGuard && RecordsUnder(r, 2))
      && (ch.MustBePresent? ==> |r| > 2 && r[2] == MissingGuard && RecordsUnder(r, 2))
      && (ch.MustMatch? ==> |r| > 1 && r[1] == ExistsGuard && RecordsUnder(r, 1))
  {
    match ch
    case MustBeAbsent(n, _, fatal) => AbsentShape(n, Recipient(fatal));
    case MustBePresent(n, _, fatal) => PresentShape(n, Recipient(fatal));
    case MustMatch(t, op, fatal) => MatchShape(t, op, fatal);
  }

  // ---------------------------------------------------------------------------
  // Which checks a change gets
  // ---------------------------------------------------------------------------

  /** The operation name a change's checks carry (no check is made for an
      ignored table). */
  function OpName(t: ChangeType): string {
    match t
    case Create => "create"
    case Alter => "alter"
    case Drop => "drop"
    case Ignore => "ignore"
  }

  /** The descriptors the checks of phase `p` dereference are present. */
  predicate Ready(p: Phase, c: Change) {
    match c.kind
    case Create => p == Pre || c.newTable.Some?
    case Alter => if p == Pre then c.oldTable.Some? else c.newTable.Some?
    case Drop => p == Post || c.oldTable.Some?
    case Ignore => true
  }

  /** The descriptor a state-match check of phase `p` compares against: what
      the table should be before the change, or after it. */
  function Expected(p: Phase, c: Change): Option<TableDesc> {
    if p == Pre then c.oldTable else c.newTable
  }

  /** The checks `scriptPreValidations` emits for one change. */
  function PreChecks(c: Change): (r: seq<Check>)
    requires Ready(Pre, c)
  {
    match c.kind
    case Create => [MustBeAbsent(c.tableName, "create", true)]
    case Alter => [MustBePresent(c.tableName, "alter", true), MustMatch(c.oldTable.value, "alter", true)]
    case Drop => [MustBePresent(c.tableName, "drop", true), MustMatch(c.oldTable.value, "drop", false)]
    case Ignore => []
  }

  /** The checks `scriptPostValidations` emits for one change. */
  function PostChecks(c: Change): (r: seq<Check>)
    requires Ready(Post, c)
  {
    match c.kind
    case Create => [MustBePresent(c.tableName, "create", true), MustMatch(c.newTable.value, "create", true)]
    case Alter => [MustBePresent(c.tableName, "alter", true), MustMatch(c.newTable.value, "alter", true)]
    case Drop => [MustBeAbsent(c.tableName, "drop", true)]
    case Ignore => []
  }

  /** The checks of one change in phase `p`. Every check names the change's
      operation and table, and a state match always comes right after a
      fatal presence check of the same table, against the descriptor the
      phase expects. */
  function Checks(p: Phase, c: Change): (r: seq<Check>)
    requires Ready(p, c)
    ensures |r| <= 2
    ensures forall i :: 0 <= i < |r| ==> r[i].op == OpName(c.kind)
    ensures forall i :: 0 <= i < |r| && !r[i].MustMatch? ==> r[i].tableName == c.tableName
    ensures forall i :: 0 <= i < |r| && r[i].MustMatch? ==>
      && Expected(p, c) == Some(r[i].table)
      && 0 < i && r[i - 1] == MustBePresent(c.tableName, OpName(c.kind), true)
  {
    if p == Pre then PreChecks(c) else PostChecks(c)
  }

  /** The severity table: the collection a check of kind `k`
      for a change of type `t` reports into in phase `p`, or `None` when no
      such check is made. */
  function Policy(p: Phase, t: ChangeType, k: CheckKind): Option<Collection> {
    match (p, t, k)
    case (Pre, Create, Absence) => Some(PreErrors)
    case (Pre, Alter, Presence) => Some(PreErrors)
    case (Pre, Alter, StateMatch) => Some(PreErrors)
    case (Pre, Drop, Presence) => Some(PreErrors)
    case (Pre, Drop, StateMatch) => Some(PreWarnings)
    case (Post, Create, Presence) => Some(PreErrors)
    case (Post, Create, StateMatch) => Some(PreErrors)
    case (Post, Alter, Presence) => Some(PreErrors)
    case (Post, Alter, StateMatch) => Some(PreErrors)
    case (Post, Drop, Absence) => Some(PreErrors)
    case _ => None
  }

  function CountKind(chs: seq<Check>, k: CheckKind): nat
    decreases |chs|
  {
    if chs == [] then 0
    else (if KindOf(chs[0]) == k then 1 else 0) + CountKind(chs[1..], k)
  }

  /** A change gets exactly the checks the severity table lists, one of each,
      each reporting into the collection the table names. */
  lemma SeverityFollowsPolicy(p: Phase, c: Change, k: CheckKind)
    requires Ready(p, c)
    ensures CountKind(Checks(p, c), k) == if Policy(p, c.kind, k).Some? then 1 else 0
    ensures forall i :: 0 <= i < |Checks(p, c)| ==>
      Policy(p, c.kind, KindOf(Checks(p, c)[i])) == Some(Recipient(Checks(p, c)[i].fatal))
  {
    var r := Checks(p, c);
    if |r| == 2 {
      assert r[1..] == [r[1]] && r[1..][1..] == [];
      assert CountKind(r[1..], k) == (if KindOf(r[1]) == k then 1 else 0) + CountKind(r[1..][1..], k);
      assert CountKind(r, k) == (if KindOf(r[0]) == k then 1 else 0) + (if KindOf(r[1]) == k then 1 else 0);
    } else if |r| == 1 {
      assert r[1..] == [];
    }
  }

  // ---------------------------------------------------------------------------
  // The lines of a phase
  // ---------------------------------------------------------------------------

  /** The lines of a list of checks, in order. */
  function ChecksLines(chs: seq<Check>): seq<string>
    decreases |chs|
  {
    if chs == [] then [] else CheckLines(chs[0]) + ChecksLines(chs[1..])
  }

  /** A run of checks is balanced, holds no gate and never records into
      `postErrors`; when every check is fatal, everything it records goes to
      `preErrors`. */
  lemma {:induction false} ChecksShape(chs: seq<Check>)
    ensures var r := ChecksLines(chs);
      && Balanced(r) && NoGate(r) && NeverRecords(r, PostErrors)
      && ((forall i :: 0 <= i < |chs| ==> chs[i].fatal) ==> RecordsOnly(r, PreErrors))
    decreases |chs|
  {
    if chs == [] {
      BalancedPlain([]);
    } else {
      var head := CheckLines(chs[0]);
      var rest := ChecksLines(chs[1..]);
      CheckShape(chs[0]);
      ChecksShape(chs[1..]);
      BalancedAppend(head, rest);
      NoGateAppend(head, rest);
      RecordsOnlyNever(head, Recipient(chs[0].fatal), PostErrors);
      NeverRecordsAppend(head, rest, PostErrors);
      if forall i :: 0 <= i < |chs| ==> chs[i].fatal {
        forall i | 0 <= i < |chs[1..]|
          ensures chs[1..][i].fatal
        {
          assert chs[1..][i] == chs[i + 1];
        }
        RecordsOnlyAppend(head, rest, PreErrors);
      }
    }
  }

  lemma {:induction false} ChecksLinesAppend(a: seq<Check>, b: seq<Check>)
    ensures ChecksLines(a + b) == ChecksLines(a) + ChecksLines(b)
    decreases |a|
  {
    if a == [] {
      assert a + b == b;
    } else {
      assert (a + b)[1..] == a[1..] + b;
      ChecksLinesAppend(a[1..], b);
    }
  }

  /** Every change's checks in phase `p`, in input order. */
  function PhaseChecks(p: Phase, cs: seq<Change>): seq<Check>
    requires forall i :: 0 <= i < |cs| ==> Ready(p, cs[i])
    decreases |cs|
  {
    if cs == [] then [] else Checks(p, cs[0]) + PhaseChecks(p, cs[1..])
  }

  /** The lines of one phase: each change's checks, in input order. */
  function PhaseLines(p: Phase, cs: seq<Change>): seq<string>
    requires forall i :: 0 <= i < |cs| ==> Ready(p, cs[i])
  {
    ChecksLines(PhaseChecks(p, cs))
  }

  /** The lines one change contributes to a phase. */
  function ChangeCheckLines(p: Phase, c: Change): seq<string>
    requires Ready(p, c)
  {
    ChecksLines(Checks(p, c))
  }

  lemma {:induction false} PhaseChecksAppend(p: Phase, a: seq<Change>, b: seq<Change>)
    requires forall i :: 0 <= i < |a| ==> Ready(p, a[i])
    requires forall i :: 0 <= i < |b| ==> Ready(p, b[i])
    ensures forall i :: 0 <= i < |a + b| ==> Ready(p, (a + b)[i])
    ensures PhaseChecks(p, a + b) == PhaseChecks(p, a) + PhaseChecks(p, b)
    decreases |a|
  {
    ReadyAppend(p, a, b, a + b);
    if a == [] {
      assert a + b == b;
    } else {
      var tl := a[1..];
      ReadyTail(p, a, tl);
      PhaseChecksAppend(p, tl, b);
      PhaseChecksCons(p, a, b, a + b, tl);
    }
  }

  lemma ReadyAppend(p: Phase, a: seq<Change>, b: seq<Change>, ab: seq<Change>)
    requires forall i :: 0 <= i < |a| ==> Ready(p, a[i])
    requires forall i :: 0 <= i < |b| ==> Ready(p, b[i])
    requires ab == a + b
    ensures forall i :: 0 <= i < |ab| ==> Ready(p, ab[i])
  {
    forall i | 0 <= i < |ab|
      ensures Ready(p, ab[i])
    {
      if i >= |a| {
        assert ab[i] == b[i - |a|];
      }
    }
  }

  lemma ReadyTail(p: Phase, a: seq<Change>, tl: seq<Change>)
    requires forall i :: 0 <= i < |a| ==> Ready(p, a[i])
    requires a != [] && tl == a[1..]
    ensures forall i :: 0 <= i < |tl| ==> Ready(p, tl[i])
    ensures Ready(p, a[0])
  {
    forall i | 0 <= i < |tl|
      ensures Ready(p, tl[i])
    {
      assert tl[i] == a[i + 1];
    }
  }

  /** One step of `PhaseChecksAppend`: peel the first change off `a`. */
  lemma PhaseChecksCons(p: Phase, a: seq<Change>, b: seq<Change>, ab: seq<Change>, tl: seq<Change>)
    requires forall i :: 0 <= i < |a| ==> Ready(p, a[i])
    requires forall i :: 0 <= i < |b| ==> Ready(p, b[i])
    requires forall i :: 0 <= i < |tl| ==> Ready(p, tl[i])
    requires forall i :: 0 <= i < |ab| ==> Ready(p, ab[i])
    requires a != [] && ab == a + b && tl == a[1..] && Ready(p, a[0])
    requires forall i :: 0 <= i < |tl + b| ==> Ready(p, (tl + b)[i])
    requires PhaseChecks(p, tl + b) == PhaseChecks(p, tl) + PhaseChecks(p, b)
    ensures PhaseChecks(p, ab) == PhaseChecks(p, a) + PhaseChecks(p, b)
  {
    TailOfAppend(a, b, ab);
    PhaseChecksUnfold(p, ab);
    PhaseChecksUnfold(p, a);
    ConsAssoc(PhaseChecks(p, ab), PhaseChecks(p, a), Checks(p, a[0]), PhaseChecks(p, tl), PhaseChecks(p, b));
  }

  lemma PhaseChecksUnfold(p: Phase, cs: seq<Change>)
    requires forall i :: 0 <= i < |cs| ==> Ready(p, cs[i])
    requires cs != []
    ensures forall i :: 0 <= i < |cs[1..]| ==> Ready(p, cs[1..][i])
    ensures PhaseChecks(p, cs) == Checks(p, cs[0]) + PhaseChecks(p, cs[1..])
  {
  }

  lemma SixLines<T>(a: T, b: T, c: T, d: T, e: T, f: T)
    ensures [a, b] + [c] + [d] + [e, f] == [a, b, c, d, e, f]
  {
  }

  lemma TailOfAppend<T>(a: seq<T>, b: seq<T>, ab: seq<T>)
    requires a != [] && ab == a + b
    ensures ab[0] == a[0] && ab[1..] == a[1..] + b
  {
  }

  lemma ConsAssoc<T>(r: seq<T>, ra: seq<T>, x: seq<T>, y: seq<T>, z: seq<T>)
    requires r == x + (y + z) && ra == x + y
    ensures r == ra + z
  {
  }

  /** Each phase walks the changes in input order: the lines for a
      concatenation of change lists are the concatenation of their lines. */
  lemma PhaseLinesAppend(p: Phase, a: seq<Change>, b: seq<Change>)
    requires forall i :: 0 <= i < |a| ==> Ready(p, a[i])
    requires forall i :: 0 <= i < |b| ==> Ready(p, b[i])
    ensures forall i :: 0 <= i < |a + b| ==> Ready(p, (a + b)[i])
    ensures PhaseLines(p, a + b) == PhaseLines(p, a) + PhaseLines(p, b)
  {
    PhaseChecksAppend(p, a, b);
    ChecksLinesAppend(PhaseChecks(p, a), PhaseChecks(p, b));
  }

  lemma PhaseLinesSingle(p: Phase, c: Change)
    requires Ready(p, c)
    ensures PhaseLines(p, [c]) == ChangeCheckLines(p, c)
  {
    assert [c][1..] == [];
    assert PhaseChecks(p, [c]) == Checks(p, c) + [];
    assert Checks(p, c) + [] == Checks(p, c);
  }

  /** Change `k`'s lines sit between those of the changes before and after it. */
  lemma PhaseLinesSplit(p: Phase, cs: seq<Change>, k: nat)
    requires forall i :: 0 <= i < |cs| ==> Ready(p, cs[i])
    requires k < |cs|
    ensures PhaseLines(p, cs) ==
      PhaseLines(p, cs[..k]) + ChangeCheckLines(p, cs[k]) + PhaseLines(p, cs[k + 1..])
  {
    var before, mid, after := cs[..k], [cs[k]], cs[k + 1..];
    ReadySlices(p, cs, k, before, mid, after);
    PhaseLinesCons(p, cs[k], after, mid + after);
    PhaseLinesAppend(p, before, mid + after);
    Regroup3(PhaseLines(p, cs), PhaseLines(p, before), ChangeCheckLines(p, cs[k]), PhaseLines(p, after),
             PhaseLines(p, mid + after));
  }

  lemma Regroup3(r: seq<string>, x: seq<string>, y: seq<string>, z: seq<string>, yz: seq<string>)
    requires r == x + yz && yz == y + z
    ensures r == x + y + z
  {
  }

  /** The lines of a change followed by more changes. */
  lemma PhaseLinesCons(p: Phase, c: Change, after: seq<Change>, cs: seq<Change>)
    requires Ready(p, c) && forall i :: 0 <= i < |after| ==> Ready(p, after[i])
    requires cs == [c] + after
    ensures forall i :: 0 <= i < |cs| ==> Ready(p, cs[i])
    ensures PhaseLines(p, cs) == ChangeCheckLines(p, c) + PhaseLines(p, after)
  {
    assert cs[0] == c && cs[1..] == after;
    PhaseLinesAppend(p, [c], after);
    PhaseLinesSingle(p, c);
  }

  lemma ReadySlices(p: Phase, cs: seq<Change>, k: nat, before: seq<Change>, mid: seq<Change>, after: seq<Change>)
    requires forall i :: 0 <= i < |cs| ==> Ready(p, cs[i])
    requires k < |cs| && before == cs[..k] && mid == [cs[k]] && after == cs[k + 1..]
    ensures forall i :: 0 <= i < |before| ==> Ready(p, before[i])
    ensures forall i :: 0 <= i < |mid| ==> Ready(p, mid[i])
    ensures forall i :: 0 <= i < |after| ==> Ready(p, after[i])
    ensures cs == before + (mid + after)
  {
    assert mid + after == cs[k..];
  }

  /** Outside the pre-validation of a drop, every check is fatal. */
  lemma {:induction false} PhaseChecksFatal(p: Phase, cs: seq<Change>)
    requires forall i :: 0 <= i < |cs| ==> Ready(p, cs[i])
    requires p == Post || forall i :: 0 <= i < |cs| ==> cs[i].kind != Drop
    ensures forall i :: 0 <= i < |PhaseChecks(p, cs)| ==> PhaseChecks(p, cs)[i].fatal
    decreases |cs|
  {
    if cs != [] {
      PhaseChecksFatal(p, cs[1..]);
      var head := Checks(p, cs[0]);
      var rest := PhaseChecks(p, cs[1..]);
      assert forall i :: 0 <= i < |head| ==> head[i].fatal;
      assert PhaseChecks(p, cs) == head + rest;
    }
  }

  /** A phase is one balanced run of blocks without the gate that never
      records into `postErrors`. Post-validation records only into
      `preErrors`, and so does pre-validation unless a drop is among the
      changes. */
  lemma PhaseShape(p: Phase, cs: seq<Change>)
    requires forall i :: 0 <= i < |cs| ==> Ready(p, cs[i])
    ensures var r := PhaseLines(p, cs);
      && Balanced(r) && NoGate(r) && NeverRecords(r, PostErrors)
      && ((p == Post || forall i :: 0 <= i < |cs| ==> cs[i].kind != Drop) ==> RecordsOnly(r, PreErrors))
  {
    ChecksShape(PhaseChecks(p, cs));
    if p == Post || forall i :: 0 <= i < |cs| ==> cs[i].kind != Drop {
      PhaseChecksFatal(p, cs);
    }
  }

  /** The table, or one of its families, has a property to compare. */
  predicate HasProperties(t: TableDesc) {
    |t.props| > 0 || exists j :: 0 <= j < |t.families| && |t.families[j].props| > 0
  }

  /** A family with a property makes the family part record into `c`. */
  lemma {:induction false} FamiliesRecord(fs: seq<FamilyDesc>, c: Collection, op: string, j: nat)
    requires j < |fs| && |fs[j].props| > 0
    ensures SomeRecord(FamiliesMatchLines(fs, c, op), c)
    decreases |fs|
  {
    var head := FamilyMatchLines(fs[0], c, op);
    var rest := FamiliesMatchLines(fs[1..], c, op);
    FamiliesUnfold(fs, c, op);
    if j == 0 {
      CompareRecords(c, "cf", op, fs[0].props);
      SomeRecordAppend(FamilyFetch(fs[0].name), CompareLines(c, "cf", op, fs[0].props), c);
    } else {
      assert fs[1..][j - 1] == fs[j];
      FamiliesRecord(fs[1..], c, op, j - 1);
    }
    SomeRecordAppend(head, rest, c);
  }

  lemma FamiliesUnfold(fs: seq<FamilyDesc>, c: Collection, op: string)
    requires fs != []
    ensures FamiliesMatchLines(fs, c, op) == FamilyMatchLines(fs[0], c, op) + FamiliesMatchLines(fs[1..], c, op)
  {
  }

  /** A non-empty property map makes its `compare` lines record into `c`. */
  lemma CompareRecords(c: Collection, obj: string, op: string, m: map<string, string>)
    requires |m| > 0
    ensures SomeRecord(CompareLines(c, obj, op, m), c)
  {
    CompareLinesReport(c, obj, op, m);
    RecordAt(CompareLines(c, obj, op, m), c, 0);
  }

  /** A table with a property anywhere makes its state match record into `c`. */
  lemma MatchBodyRecords(t: TableDesc, c: Collection, op: string)
    requires HasProperties(t)
    ensures SomeRecord(MatchBody(t, c, op), c)
  {
    var fetch := TableFetch();
    var compares := CompareLines(c, "table", op, t.props);
    var families := FamiliesMatchLines(t.families, c, op);
    if |t.props| > 0 {
      CompareRecords(c, "table", op, t.props);
      SomeRecordAppend(fetch, compares, c);
    } else {
      var j :| 0 <= j < |t.families| && |t.families[j].props| > 0;
      FamiliesRecord(t.families, c, op, j);
    }
    SomeRecordAppend(fetch + compares, families, c);
  }

  /** Some line of `ls` records into `c`. */
  predicate SomeRecord(ls: seq<string>, c: Collection) {
    exists i :: 0 <= i < |ls| && Records(ls[i], c)
  }

  lemma RecordAt(ls: seq<string>, c: Collection, i: nat)
    requires i < |ls| && Records(ls[i], c)
    ensures SomeRecord(ls, c)
  {
  }

  /** A record anywhere in `a` or `b` is a record in `a + b`. */
  lemma SomeRecordAppend(a: seq<string>, b: seq<string>, c: Collection)
    requires SomeRecord(a, c) || SomeRecord(b, c)
    ensures SomeRecord(a + b, c)
  {
    if SomeRecord(a, c) {
      var i :| 0 <= i < |a| && Records(a[i], c);
      RecordAt(a + b, c, i);
    } else {
      var i :| 0 <= i < |b| && Records(b[i], c);
      RecordAt(a + b, c, |a| + i);
    }
  }

  /** A drop of a table with a property anywhere puts a `preWarnings` record
      into the drop's own pre-validation lines. */
  lemma DropChangeWarns(c: Change)
    requires c.kind == Drop && c.oldTable.Some? && HasProperties(c.oldTable.value)
    ensures Ready(Pre, c)
    ensures SomeRecord(ChangeCheckLines(Pre, c), PreWarnings)
  {
    var t := c.oldTable.value;
    var body := MatchBody(t, PreWarnings, "drop");
    var head := [MatchComment(t.name, false)] + [ExistsGuard];
    DropOwnLines(c);
    assert Recipient(false) == PreWarnings;
    MatchBodyRecords(t, PreWarnings, "drop");
    SomeRecordAppend(head, body, PreWarnings);
    SomeRecordAppend(head + body, ["end", ""], PreWarnings);
    SomeRecordAppend(CheckLines(MustBePresent(c.tableName, "drop", true)), MatchLines(t, "drop", false), PreWarnings);
  }

  /** Before a drop, pre-validation checks presence, then the state. */
  lemma DropOwnLines(c: Change)
    requires c.kind == Drop && c.oldTable.Some?
    ensures ChangeCheckLines(Pre, c)
      == CheckLines(MustBePresent(c.tableName, "drop", true)) + MatchLines(c.oldTable.value, "drop", false)
  {
    var chs := Checks(Pre, c);
    assert chs == [MustBePresent(c.tableName, "drop", true), MustMatch(c.oldTable.value, "drop", false)];
    assert chs[1..] == [chs[1]];
    assert ChecksLines(chs[1..]) == MatchLines(c.oldTable.value, "drop", false) + [];
  }

  /** Conversely, a drop whose table or families have properties does make
      pre-validation record into `preWarnings`: a state mismatch before a
      drop only warns. */
  lemma DropDriftWarns(cs: seq<Change>, k: nat)
    requires forall i :: 0 <= i < |cs| ==> Ready(Pre, cs[i])
    requires k < |cs| && cs[k].kind == Drop && cs[k].oldTable.Some? && HasProperties(cs[k].oldTable.value)
    ensures SomeRecord(PhaseLines(Pre, cs), PreWarnings)
  {
    PhaseLinesSplit(Pre, cs, k);
    DropChangeWarns(cs[k]);
    var before := PhaseLines(Pre, cs[..k]);
    var own := ChangeCheckLines(Pre, cs[k]);
    SomeRecordAppend(before, own, PreWarnings);
    SomeRecordAppend(before + own, PhaseLines(Pre, cs[k + 1..]), PreWarnings);
  }

  /** Whether phase `p` checks the state of a change's table. */
  predicate HasMatch(p: Phase, c: Change) {
    Policy(p, c.kind, StateMatch).Some?
  }

  /** A change whose table state is checked gets a presence check and then
      the match against the descriptor the phase expects. */
  lemma ChecksWithMatch(p: Phase, c: Change)
    requires Ready(p, c) && HasMatch(p, c)
    ensures Checks(p, c) == [
      MustBePresent(c.tableName, OpName(c.kind), true),
      MustMatch(Expected(p, c).value, OpName(c.kind), Policy(p, c.kind, StateMatch) == Some(PreErrors))]
  {
  }

  lemma ChangeLinesWithMatch(p: Phase, c: Change)
    requires Ready(p, c) && HasMatch(p, c)
    ensures ChangeCheckLines(p, c) ==
      PresentLines(c.tableName, PreErrors)
      + MatchLines(Expected(p, c).value, OpName(c.kind), Policy(p, c.kind, StateMatch) == Some(PreErrors))
  {
    var chs := Checks(p, c);
    ChecksWithMatch(p, c);
    assert chs[1..] == [chs[1]];
    assert ChecksLines(chs[1..]) == CheckLines(chs[1]) + [];
    assert Recipient(true) == PreErrors;
  }

  /** The state-match block of a change reads `tablename` as the change's own
      table: the presence check right before it (six lines) binds it, the
      match block binds nothing, and whatever earlier lines set it to is
      overridden. */
  lemma MatchReadsChangeTable(p: Phase, c: Change, earlier: seq<string>, i: nat)
    requires Ready(p, c) && HasMatch(p, c)
    requires 6 <= i <= |ChangeCheckLines(p, c)|
    ensures ChangeCheckLines(p, c)[6..] ==
      MatchLines(Expected(p, c).value, OpName(c.kind), Policy(p, c.kind, StateMatch) == Some(PreErrors))
    ensures LastBinding(earlier + ChangeCheckLines(p, c)[..i]) == Some(Binding(c.tableName))
  {
    var fatal := Policy(p, c.kind, StateMatch) == Some(PreErrors);
    var present := PresentLines(c.tableName, PreErrors);
    var matching := MatchLines(Expected(p, c).value, OpName(c.kind), fatal);
    ChangeLinesWithMatch(p, c);
    PresentShape(c.tableName, PreErrors);
    MatchShape(Expected(p, c).value, OpName(c.kind), fatal);
    assert ChangeCheckLines(p, c) == present + matching;
    LastBindingCut(earlier, present, matching, i);
  }
}
