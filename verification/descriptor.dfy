/**
  The descriptor formatter: a property map rendered as one line per key, in
  ascending key order, each value escaped.

  `getSortedStringEntries` copies the descriptor's map into a `TreeMap` and
  returns its entry set. `SortedEntries` is that entry set, defined directly
  as the ascending listing of the map; `FromEntries` models the copy loop
  itself (one `TreeMap.put` per entry, in whatever order the descriptor's map
  yields them) and `TreeOrderIndependent` proves the two agree for every
  iteration order.
 */
module Descriptor {
  import opened Lex
  import opened Escape
  import opened Lines

  type Entry = (string, string)

  function KeysOf(es: seq<Entry>): (ks: seq<string>)
    ensures |ks| == |es|
    ensures forall i :: 0 <= i < |es| ==> ks[i] == es[i].0
  {
    seq(|es|, i requires 0 <= i < |es| => es[i].0)
  }

  /** Keys strictly ascending, hence also pairwise distinct. */
  predicate KeysAscending(es: seq<Entry>) {
    forall i, j :: 0 <= i < j < |es| ==> Below(es[i].0, es[j].0)
  }

  /** `es` lists exactly the key/value pairs of `m` (repeats allowed). */
  ghost predicate Lists(es: seq<Entry>, m: map<string, string>) {
    forall e :: e in es <==> e.0 in m && m[e.0] == e.1
  }

  /** The entry set of the TreeMap holding `m`: ascending keys, each with its value. */
  function SortedEntries(m: map<string, string>): (r: seq<Entry>)
    ensures KeysAscending(r)
    ensures Lists(r, m)
    ensures |r| == |m|
    ensures KeysOf(r) == SortedKeys(m.Keys)
  {
    var ks := SortedKeys(m.Keys);
    var r := seq(|ks|, i requires 0 <= i < |ks| => (ks[i], m[ks[i]]));
    assert KeysOf(r) == ks;
    assert forall e :: e in r <==> e.0 in m && m[e.0] == e.1 by {
      forall e
        ensures e in r <==> e.0 in m && m[e.0] == e.1
      {
        if e.0 in m && m[e.0] == e.1 {
          assert e.0 in ks;
          var i :| 0 <= i < |ks| && ks[i] == e.0;
          assert r[i] == e;
        }
      }
    }
    r
  }

  /** Two ascending entry lists with the same entries are the same list. */
  lemma EntriesUnique(a: seq<Entry>, b: seq<Entry>)
    requires KeysAscending(a) && KeysAscending(b)
    requires forall e :: e in a <==> e in b
    ensures a == b
  {
    var ka, kb := KeysOf(a), KeysOf(b);
    forall k
      ensures k in ka <==> k in kb
    {
      if k in ka {
        var i :| 0 <= i < |ka| && ka[i] == k;
        assert a[i] in b;
        var j :| 0 <= j < |b| && b[j] == a[i];
        assert kb[j] == k;
      }
      if k in kb {
        var j :| 0 <= j < |kb| && kb[j] == k;
        assert b[j] in a;
        var i :| 0 <= i < |a| && a[i] == b[j];
        assert ka[i] == k;
      }
    }
    AscendingUnique(ka, kb);
    forall i | 0 <= i < |a|
      ensures a[i] == b[i]
    {
      assert a[i] in b;
      var j :| 0 <= j < |b| && b[j] == a[i];
      if i != j {
        if i < j {
          assert Below(b[i].0, b[j].0);
        } else {
          assert Below(b[j].0, b[i].0);
        }
        BelowIrreflexive(b[i].0);
      }
    }
  }

  /** `TreeMap.put(k, v)` on an ascending entry list. */
  function Put(t: seq<Entry>, k: string, v: string): (r: seq<Entry>)
    requires KeysAscending(t)
    ensures KeysAscending(r)
    ensures forall e :: e in r <==> e == (k, v) || (e in t && e.0 != k)
    decreases |t|
  {
    if t == [] then [(k, v)]
    else if Below(k, t[0].0) then
      assert forall j :: 0 <= j < |t| ==> Below(k, t[j].0) by {
        forall j | 0 < j < |t|
          ensures Below(k, t[j].0)
        {
          BelowTransitive(k, t[0].0, t[j].0);
        }
      }
      assert forall e :: e in t ==> e.0 != k by {
        forall e | e in t
          ensures e.0 != k
        {
          var j :| 0 <= j < |t| && t[j] == e;
          BelowIrreflexive(k);
        }
      }
      [(k, v)] + t
    else if k == t[0].0 then
      assert t == [t[0]] + t[1..];
      assert forall e :: e in t[1..] ==> e.0 != k by {
        forall e | e in t[1..]
          ensures e.0 != k
        {
          var j :| 1 <= j < |t| && t[j] == e;
          assert Below(t[0].0, t[j].0);
          BelowIrreflexive(k);
        }
      }
      [(k, v)] + t[1..]
    else
      BelowTotal(k, t[0].0);
      var rest := Put(t[1..], k, v);
      assert t == [t[0]] + t[1..];
      assert forall j :: 0 <= j < |rest| ==> Below(t[0].0, rest[j].0) by {
        forall j | 0 <= j < |rest|
          ensures Below(t[0].0, rest[j].0)
        {
          assert rest[j] in rest;
          if rest[j] != (k, v) {
            var i :| 1 <= i < |t| && t[i] == rest[j];
          }
        }
      }
      assert t[0].0 != k;
      [t[0]] + rest
  }

  /** After a put, the put key is present and no key already there is lost. */
  lemma PutKeeps(t: seq<Entry>, k: string, v: string)
    requires KeysAscending(t)
    ensures k in KeysOf(Put(t, k, v))
    ensures forall e :: e in t ==> e.0 in KeysOf(Put(t, k, v))
  {
    var r := Put(t, k, v);
    assert (k, v) in r;
    var i :| 0 <= i < |r| && r[i] == (k, v);
    assert KeysOf(r)[i] == k;
    forall e | e in t
      ensures e.0 in KeysOf(r)
    {
      if e.0 != k {
        assert e in r;
        var j :| 0 <= j < |r| && r[j] == e;
        assert KeysOf(r)[j] == e.0;
      }
    }
  }

  /** The TreeMap after putting the entries of `es` one by one, in order. */
  function FromEntries(es: seq<Entry>): (r: seq<Entry>)
    ensures KeysAscending(r)
    ensures forall e :: e in r ==> e in es
    ensures forall e :: e in es ==> e.0 in KeysOf(r)
    decreases |es|
  {
    if es == [] then []
    else
      var init := es[..|es| - 1];
      var last := es[|es| - 1];
      var t := FromEntries(init);
      var r := Put(t, last.0, last.1);
      assert es == init + [last];
      FromEntriesStep(t, init, last, r);
      r
  }

  lemma FromEntriesStep(t: seq<Entry>, init: seq<Entry>, last: Entry, r: seq<Entry>)
    requires KeysAscending(t) && r == Put(t, last.0, last.1)
    requires forall e :: e in init ==> e.0 in KeysOf(t)
    ensures forall e :: e in init + [last] ==> e.0 in KeysOf(r)
  {
    PutKeeps(t, last.0, last.1);
    forall e | e in init + [last]
      ensures e.0 in KeysOf(r)
    {
      if e != last {
        assert e in init;
        var i :| 0 <= i < |t| && KeysOf(t)[i] == e.0;
        assert t[i] in t;
      }
    }
  }

  /** However the descriptor's map enumerates its entries, the TreeMap copy
      lists them in the same canonical order. */
  lemma TreeOrderIndependent(es: seq<Entry>, m: map<string, string>)
    requires Lists(es, m)
    ensures FromEntries(es) == SortedEntries(m)
  {
    var t := FromEntries(es);
    var s := SortedEntries(m);
    forall e
      ensures e in t <==> e in s
    {
      if e in s {
        assert e in es;
        assert e.0 in KeysOf(t);
        var i :| 0 <= i < |t| && KeysOf(t)[i] == e.0;
        assert t[i] in es;
        assert t[i] == e;
      }
    }
    EntriesUnique(t, s);
  }

  // ---------------------------------------------------------------------------
  // Property lines
  // ---------------------------------------------------------------------------

  /** Where a property line sends its key and escaped value: a `compare` call
      against a live object (validation), or a `setValue` call on the object
      being built (create and alter). */
  datatype Target =
    | Compare(collection: string, obj: string, op: string)
    | SetValue(obj: string)

  function PropertyLine(t: Target, key: string, value: string): string {
    match t
    case Compare(c, o, op) =>
      "    compare(" + c + ", " + o + ", \"" + op + "\", \"" + key + "\", \"" + value + "\")"
    case SetValue(o) =>
      o + ".setValue(\"" + key + "\", \"" + value + "\")"
  }

  /** The text every line of the target starts with, whatever the key. */
  function LineHead(t: Target): string {
    match t
    case Compare(c, _, _) => "    compare(" + c + ", "
    case SetValue(o) => o + ".setValue(\""
  }

  lemma PropertyLineHead(t: Target, key: string, value: string)
    ensures StartsWith(PropertyLine(t, key, value), LineHead(t))
  {
    var l := PropertyLine(t, key, value);
    match t
    case Compare(c, o, op) =>
      assert l == LineHead(t) + (o + ", \"" + op + "\", \"" + key + "\", \"" + value + "\")");
    case SetValue(o) =>
      assert l == LineHead(t) + (key + "\", \"" + value + "\")");
  }

  function EntryLines(t: Target, es: seq<Entry>): (r: seq<string>)
    ensures |r| == |es|
    ensures forall i :: 0 <= i < |es| ==> r[i] == PropertyLine(t, es[i].0, EscapeQuotes(es[i].1))
  {
    seq(|es|, i requires 0 <= i < |es| => PropertyLine(t, es[i].0, EscapeQuotes(es[i].1)))
  }

  /** One line per key of `m`, in ascending key order (`PropertyLinesSorted`). */
  function PropertyLines(t: Target, m: map<string, string>): (r: seq<string>)
    ensures |r| == |m|
    ensures forall i :: 0 <= i < |r| ==> StartsWith(r[i], LineHead(t))
  {
    var es := SortedEntries(m);
    var r := EntryLines(t, es);
    forall i | 0 <= i < |r|
      ensures StartsWith(r[i], LineHead(t))
    {
      PropertyLineHead(t, es[i].0, EscapeQuotes(es[i].1));
    }
    r
  }

  /** Line `i` carries the `i`-th key in ascending order together with its
      escaped value. */
  lemma PropertyLinesSorted(t: Target, m: map<string, string>)
    ensures forall i :: 0 <= i < |PropertyLines(t, m)| ==>
      var k := SortedKeys(m.Keys)[i]; PropertyLines(t, m)[i] == PropertyLine(t, k, EscapeQuotes(m[k]))
  {
    var es := SortedEntries(m);
    var r := PropertyLines(t, m);
    assert r == EntryLines(t, es);
    forall i | 0 <= i < |r|
      ensures es[i] == (SortedKeys(m.Keys)[i], m[SortedKeys(m.Keys)[i]])
    {
      assert es[i] in es;
      assert KeysOf(es)[i] == es[i].0;
    }
  }

  /** Every key gets its line, and a smaller key's line comes first. */
  lemma PropertyLinesPerKey(t: Target, m: map<string, string>, k: string)
    requires k in m
    ensures exists i ::
              && 0 <= i < |PropertyLines(t, m)|
              && SortedKeys(m.Keys)[i] == k
              && PropertyLines(t, m)[i] == PropertyLine(t, k, EscapeQuotes(m[k]))
              && (forall j :: 0 <= j < i ==> Below(SortedKeys(m.Keys)[j], k))
              && (forall j :: i < j < |m| ==> Below(k, SortedKeys(m.Keys)[j]))
  {
    var ks := SortedKeys(m.Keys);
    PropertyLinesSorted(t, m);
    assert k in ks;
    var i :| 0 <= i < |ks| && ks[i] == k;
    assert PropertyLines(t, m)[i] == PropertyLine(t, k, EscapeQuotes(m[k]));
  }

  /** The rendered lines do not depend on the order the descriptor's map
      yields its entries: built through the TreeMap copy loop from any
      enumeration, they are `PropertyLines`. */
  lemma PropertyLinesOrderIndependent(t: Target, es: seq<Entry>, m: map<string, string>)
    requires Lists(es, m)
    ensures EntryLines(t, FromEntries(es)) == PropertyLines(t, m)
  {
    TreeOrderIndependent(es, m);
    assert PropertyLines(t, m) == EntryLines(t, SortedEntries(m));
  }
}
