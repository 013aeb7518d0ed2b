/**
 * Decoded JSON payloads, as far as the feed scripts look into them.
 *
 * Every member of a record (an object inside the payload) is a string. The
 * top-level payload keeps just enough structure to decide what Python does
 * with it: whether it is truthy, whether `len()` accepts it, and what a
 * `for item in payload` loop iterates over.
 */
module Json {
  import opened Wrappers

  /** A JSON object with string members, read with `item.get(key, '')`. */
  type Item = map<string, string>

  /** One element of a JSON array: an object, or any other value. */
  datatype Entry = Object(fields: Item) | NonObject

  /** A decoded JSON document. */
  datatype Doc =
    | Array(entries: seq<Entry>)
      /** An object: its `data` member (if it has one) and how many other members it has. */
    | Dict(data: Option<Doc>, otherKeys: nat)
    | Text(s: string)
      /** A number, a boolean or null; `truthy` is Python's truth value of it. */
    | Atom(truthy: bool)

  /** Number of members of an object. */
  function KeyCount(d: Doc): nat
    requires d.Dict?
  {
    (if d.data.Some? then 1 else 0) + d.otherKeys
  }

  /** Python's truth value of the decoded value (`if json_data:`). */
  predicate Truthy(d: Doc) {
    match d
    case Array(es) => |es| > 0
    case Dict(_, _) => KeyCount(d) > 0
    case Text(s) => |s| > 0
    case Atom(t) => t
  }

  /** Truth value of a payload variable that may still hold its initial `None`. */
  predicate TruthyOpt(p: Option<Doc>) {
    p.Some? && Truthy(p.value)
  }

  /** Whether `len(d)` is defined (it raises TypeError on numbers, booleans and null). */
  predicate Sized(d: Doc) {
    !d.Atom?
  }

  /** `item.get(key, '')`. */
  function Get(item: Item, key: string): (v: string)
    ensures key in item ==> v == item[key]
    ensures key !in item ==> v == ""
  {
    if key in item then item[key] else ""
  }

  /**
   * What `for item in d` iterates over, or None when `d` is not iterable
   * (iteration raises TypeError). Iterating an object yields its keys and
   * iterating a string its characters: neither is an object, so `.get` on
   * them raises.
   */
  function Iterated(d: Doc): (r: Option<seq<Entry>>)
    ensures r.None? <==> d.Atom?
    ensures d.Array? ==> r == Some(d.entries)
    ensures !d.Array? && r.Some? ==> forall k :: 0 <= k < |r.value| ==> r.value[k] == NonObject
  {
    match d
    case Array(es) => Some(es)
    case Dict(_, _) => Some(seq(KeyCount(d), _ => NonObject))
    case Text(s) => Some(seq(|s|, _ => NonObject))
    case Atom(_) => None
  }

  /**
   * What `d.get('data', [])` yields: the `data` member of an object, an empty
   * array when the object has none, and None when `d` is not an object
   * (AttributeError).
   */
  function DataMember(d: Doc): (r: Option<Doc>)
    ensures r.None? <==> !d.Dict?
    ensures d.Dict? && d.data.None? ==> r == Some(Array([]))
  {
    match d
    case Dict(data, _) => Some(data.GetOr(Array([])))
    case _ => None
  }

  /** What `for item in d.get('data', [])` iterates over, or None when getting or iterating raises. */
  function DataEntries(d: Doc): Option<seq<Entry>> {
    match DataMember(d)
    case None => None
    case Some(inner) => Iterated(inner)
  }
}
