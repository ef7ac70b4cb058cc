/**
  The schema diff the scripter consumes: table and column-family descriptors
  (reduced to their name, property map and family list) and the per-table
  changes, each tagged with its change type.
 */
module Schema {

  datatype Option<T> = None | Some(value: T)

  /** A column family: its name and its property map. */
  datatype FamilyDesc = FamilyDesc(name: string, props: map<string, string>)

  /** A table: its name, its property map and its families in descriptor order. */
  datatype TableDesc = TableDesc(name: string, props: map<string, string>, families: seq<FamilyDesc>)

  datatype ChangeType = Create | Alter | Drop | Ignore

  /** One table's change. `propertyChanges` holds the already rendered
      description of each changed property; it only feeds the header. */
  datatype Change = Change(
    tableName: string,
    kind: ChangeType,
    oldTable: Option<TableDesc>,
    newTable: Option<TableDesc>,
    propertyChanges: seq<string>)

  /** The descriptors the scripter dereferences for a change of this type are
      present (a missing one is a null dereference in the scripter). */
  predicate Dereferenceable(c: Change) {
    match c.kind
    case Create => c.newTable.Some?
    case Alter => c.oldTable.Some? && c.newTable.Some?
    case Drop => c.oldTable.Some?
    case Ignore => true
  }

  predicate AllDereferenceable(cs: seq<Change>) {
    forall i :: 0 <= i < |cs| ==> Dereferenceable(cs[i])
  }

  /** The changes of one type, in input order (the diff's grouping by type). */
  function OfKind(cs: seq<Change>, k: ChangeType): (r: seq<Change>)
    ensures |r| <= |cs|
    ensures forall c :: c in r <==> c in cs && c.kind == k
    decreases |cs|
  {
    if cs == [] then []
    else (if cs[0].kind == k then [cs[0]] else []) + OfKind(cs[1..], k)
  }

  /** Grouping keeps input order: the group of a concatenation is the
      concatenation of the groups. */
  lemma {:induction false} OfKindAppend(a: seq<Change>, b: seq<Change>, k: ChangeType)
    ensures OfKind(a + b, k) == OfKind(a, k) + OfKind(b, k)
    decreases |a|
  {
    if a != [] {
      assert (a + b)[1..] == a[1..] + b;
      OfKindAppend(a[1..], b, k);
    } else {
      assert a + b == b;
    }
  }

  /** Every change lands in exactly one of the four groups. */
  lemma {:induction false} OfKindPartition(cs: seq<Change>)
    ensures |OfKind(cs, Create)| + |OfKind(cs, Alter)| + |OfKind(cs, Drop)| + |OfKind(cs, Ignore)| == |cs|
    decreases |cs|
  {
    if cs != [] {
      OfKindPartition(cs[1..]);
    }
  }
}
