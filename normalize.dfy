/**
 * The record mapping every `filter_*` function of the feeds performs: each
 * JSON object of the payload becomes a new dictionary built from a fixed
 * table of (canonical key, source key) pairs, with `''` for a source key the
 * object lacks. Some feeds then drop a record whose mandatory fields came out
 * empty. Any exception while iterating (a payload that is not iterable, an
 * element that is not an object) makes the whole filter return `[]`.
 */
module Normalize {
  import opened Wrappers
  import opened Json

  /** One entry of a feed's key table: `canonical: item.get(source, '')`. */
  datatype Field = Field(canonical: string, source: string)

  type KeyTable = seq<Field>

  /** A normalized record: canonical key to value. */
  type Record = map<string, string>

  /** The canonical keys of a table are pairwise distinct (true of every feed's table). */
  predicate DistinctKeys(t: KeyTable) {
    forall i, j :: 0 <= i < j < |t| ==> t[i].canonical != t[j].canonical
  }

  function CanonicalKeys(t: KeyTable): set<string> {
    set i | 0 <= i < |t| :: t[i].canonical
  }

  /** The dictionary display `{canonical: item.get(source, ''), ...}`; a later entry overrides an earlier one with the same key. */
  function Project(item: Item, t: KeyTable): (r: Record)
    ensures r.Keys == CanonicalKeys(t)
  {
    if t == [] then map[]
    else
      var r := Project(item, t[..|t| - 1]);
      assert CanonicalKeys(t) == CanonicalKeys(t[..|t| - 1]) + {t[|t| - 1].canonical} by {
        forall k | k in CanonicalKeys(t) ensures k in CanonicalKeys(t[..|t| - 1]) + {t[|t| - 1].canonical} {
          var i :| 0 <= i < |t| && t[i].canonical == k;
          if i < |t| - 1 {
            assert t[..|t| - 1][i] == t[i];
          }
        }
      }
      r[t[|t| - 1].canonical := Get(item, t[|t| - 1].source)]
  }

  /** With distinct canonical keys, every canonical key holds the value read from its own source key. */
  lemma {:induction false} ProjectAt(item: Item, t: KeyTable, i: nat)
    requires DistinctKeys(t) && i < |t|
    ensures t[i].canonical in Project(item, t)
    ensures Project(item, t)[t[i].canonical] == Get(item, t[i].source)
  {
    if i < |t| - 1 {
      ProjectAt(item, t[..|t| - 1], i);
    }
  }

  /** A record passes the check of its mandatory keys: each is present with a non-empty value. */
  predicate Admitted(r: Record, mandatory: seq<string>) {
    forall k :: 0 <= k < |mandatory| ==> mandatory[k] in r && r[mandatory[k]] != ""
  }

  /**
   * The list the filter loop builds from the given elements, or None when the
   * loop raises (an element that is not an object has no `.get`).
   */
  function Normalized(es: seq<Entry>, t: KeyTable, mandatory: seq<string>): Option<seq<Record>> {
    if es == [] then Some([])
    else
      var init := Normalized(es[..|es| - 1], t, mandatory);
      var last := es[|es| - 1];
      if init.None? || last.NonObject? then None
      else
        var r := Project(last.fields, t);
        Some(init.value + if Admitted(r, mandatory) then [r] else [])
  }

  /** The loop raises exactly when some element is not an object. */
  lemma {:induction false} NormalizedFails(es: seq<Entry>, t: KeyTable, mandatory: seq<string>)
    ensures Normalized(es, t, mandatory).None? <==> exists k :: 0 <= k < |es| && es[k].NonObject?
  {
    if es != [] {
      var init := es[..|es| - 1];
      NormalizedFails(init, t, mandatory);
      if exists k :: 0 <= k < |init| && init[k].NonObject? {
        var k :| 0 <= k < |init| && init[k].NonObject?;
        assert es[k] == init[k];
      }
      if exists k :: 0 <= k < |es| && es[k].NonObject? {
        var k :| 0 <= k < |es| && es[k].NonObject?;
        if k < |es| - 1 {
          assert init[k] == es[k];
        }
      }
    }
  }

  /**
   * The loop is a homomorphism over concatenation: the records of `a + b` are
   * the records of `a` followed by those of `b`, so kept records keep their
   * source order.
   */
  lemma {:induction false} NormalizedAppend(a: seq<Entry>, b: seq<Entry>, t: KeyTable, mandatory: seq<string>)
    ensures Normalized(a + b, t, mandatory) ==
      if Normalized(a, t, mandatory).Some? && Normalized(b, t, mandatory).Some?
      then Some(Normalized(a, t, mandatory).value + Normalized(b, t, mandatory).value)
      else None
  {
    if b == [] {
      assert a + b == a;
      if Normalized(a, t, mandatory).Some? {
        assert Normalized(a, t, mandatory).value + [] == Normalized(a, t, mandatory).value;
      }
    } else {
      var b' := b[..|b| - 1];
      assert (a + b)[..|a + b| - 1] == a + b';
      assert (a + b)[|a + b| - 1] == b[|b| - 1];
      NormalizedAppend(a, b', t, mandatory);
      var na, nb := Normalized(a, t, mandatory), Normalized(b', t, mandatory);
      var e := b[|b| - 1];
      if na.Some? && nb.Some? && e.Object? {
        var r := Project(e.fields, t);
        var tail := if Admitted(r, mandatory) then [r] else [];
        assert na.value + nb.value + tail == na.value + (nb.value + tail);
      }
    }
  }

  /** Without mandatory keys, every element yields exactly one record, at the same position. */
  lemma {:induction false} NormalizedPointwise(es: seq<Entry>, t: KeyTable)
    requires forall k :: 0 <= k < |es| ==> es[k].Object?
    ensures Normalized(es, t, []).Some?
    ensures |Normalized(es, t, []).value| == |es|
    ensures forall k :: 0 <= k < |es| ==> Normalized(es, t, []).value[k] == Project(es[k].fields, t)
  {
    if es != [] {
      NormalizedPointwise(es[..|es| - 1], t);
    }
  }

  /** Every kept record passes the mandatory check, and there are never more records than elements. */
  lemma {:induction false} NormalizedAdmitted(es: seq<Entry>, t: KeyTable, mandatory: seq<string>)
    requires Normalized(es, t, mandatory).Some?
    ensures |Normalized(es, t, mandatory).value| <= |es|
    ensures forall k :: 0 <= k < |Normalized(es, t, mandatory).value| ==> Admitted(Normalized(es, t, mandatory).value[k], mandatory)
  {
    if es != [] {
      NormalizedAdmitted(es[..|es| - 1], t, mandatory);
    }
  }

  /** A record is in the output exactly when some element projects to it and passes the mandatory check. */
  lemma {:induction false} NormalizedMember(es: seq<Entry>, t: KeyTable, mandatory: seq<string>, r: Record)
    requires Normalized(es, t, mandatory).Some?
    ensures r in Normalized(es, t, mandatory).value <==>
      Admitted(r, mandatory) && exists k :: 0 <= k < |es| && es[k].Object? && Project(es[k].fields, t) == r
  {
    if es != [] {
      var init := es[..|es| - 1];
      NormalizedMember(init, t, mandatory, r);
      if exists k :: 0 <= k < |init| && init[k].Object? && Project(init[k].fields, t) == r {
        var k :| 0 <= k < |init| && init[k].Object? && Project(init[k].fields, t) == r;
        assert es[k] == init[k];
      }
      if exists k :: 0 <= k < |es| && es[k].Object? && Project(es[k].fields, t) == r {
        var k :| 0 <= k < |es| && es[k].Object? && Project(es[k].fields, t) == r;
        if k < |es| - 1 {
          assert init[k] == es[k];
        }
      }
    }
  }

  /**
   * The filter loop: `filtered = []; for item in es: ...; filtered.append(...)`.
   * `ok` is false when the loop raised, in which case the filter returns `[]`.
   */
  method NormalizeEntries(es: seq<Entry>, t: KeyTable, mandatory: seq<string>) returns (filtered: seq<Record>, ok: bool)
    ensures ok <==> Normalized(es, t, mandatory).Some?
    ensures filtered == Normalized(es, t, mandatory).GetOr([])
  {
    filtered := [];
    var i := 0;
    while i < |es|
      invariant i <= |es|
      invariant Normalized(es[..i], t, mandatory) == Some(filtered)
    {
      assert es[..i + 1][..i] == es[..i] && es[..i + 1][i] == es[i];
      var e := es[i];
      if e.NonObject? {
        NormalizedAppend(es[..i + 1], es[i + 1..], t, mandatory);
        assert es[..i + 1] + es[i + 1..] == es;
        return [], false;
      }
      var r := Project(e.fields, t);
      ghost var before := filtered;
      if Admitted(r, mandatory) {
        filtered := filtered + [r];
      } else {
        assert before + [] == before;
      }
      assert Normalized(es[..i + 1], t, mandatory) == Some(filtered);
      i := i + 1;
    }
    assert es[..i] == es;
    ok := true;
  }

  /** `filter_x(data)` for a feed whose payload is the list itself: `for item in data`. */
  function ListFilter(d: Doc, t: KeyTable, mandatory: seq<string>): seq<Record> {
    match Iterated(d)
    case None => []
    case Some(es) => Normalized(es, t, mandatory).GetOr([])
  }

  /** `filter_x(data)` for a feed whose records sit under `data`: `for item in data.get('data', [])`. */
  function DataFilter(d: Doc, t: KeyTable, mandatory: seq<string>): seq<Record> {
    match DataMember(d)
    case None => []
    case Some(inner) => ListFilter(inner, t, mandatory)
  }

  /** An array of objects is mapped element by element, in order, when nothing is mandatory. */
  lemma ListFilterOfArray(es: seq<Entry>, t: KeyTable)
    requires forall k :: 0 <= k < |es| ==> es[k].Object?
    ensures |ListFilter(Array(es), t, [])| == |es|
    ensures forall k :: 0 <= k < |es| ==> ListFilter(Array(es), t, [])[k] == Project(es[k].fields, t)
  {
    NormalizedPointwise(es, t);
  }

  /** A payload that is an object, a string, or holds a non-object element, filters to `[]`. */
  lemma ListFilterRaises(d: Doc, t: KeyTable, mandatory: seq<string>)
    requires !d.Array? || exists k :: 0 <= k < |d.entries| && d.entries[k].NonObject?
    ensures ListFilter(d, t, mandatory) == []
  {
    match Iterated(d)
    case None =>
    case Some(es) =>
      if d.Array? {
        NormalizedFails(es, t, mandatory);
      } else if |es| > 0 {
        assert es[0].NonObject?;
        NormalizedFails(es, t, mandatory);
      } else {
        assert es == [];
      }
  }

  /** The list-payload filter method. */
  method FilterList(d: Doc, t: KeyTable, mandatory: seq<string>) returns (filtered: seq<Record>)
    ensures filtered == ListFilter(d, t, mandatory)
  {
    var es := Iterated(d);
    if es.None? {
      return [];
    }
    var ok;
    filtered, ok := NormalizeEntries(es.value, t, mandatory);
  }

  /** The wrapped-payload filter method. */
  method FilterData(d: Doc, t: KeyTable, mandatory: seq<string>) returns (filtered: seq<Record>)
    ensures filtered == DataFilter(d, t, mandatory)
  {
    var inner := DataMember(d);
    if inner.None? {
      return [];
    }
    filtered := FilterList(inner.value, t, mandatory);
  }
}
