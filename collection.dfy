/**
 * The in-memory collection operations the controllers use, stated over the
 * sequence of record ids: `Array.prototype.find` by id, the last match that
 * a `forEach` scan leaves behind, and `splice(start, 1)`.
 */
module Collection {
  import opened Wrappers

  /** No id occurs twice. */
  ghost predicate Unique(ids: seq<string>)
  {
    forall i, j :: 0 <= i < j < |ids| ==> ids[i] != ids[j]
  }

  /** The position `find` stops at: the first record with this id. */
  function IndexOf(ids: seq<string>, id: string): (r: Option<nat>)
    ensures r.None? <==> id !in ids
    ensures r.Some? ==> r.value < |ids| && ids[r.value] == id
    ensures r.Some? ==> forall j :: 0 <= j < r.value ==> ids[j] != id
  {
    if |ids| == 0 then None
    else if ids[0] == id then Some(0)
    else match IndexOf(ids[1..], id)
      case None => None
      case Some(k) => Some(k + 1)
  }

  /** The position a front-to-back scan that remembers every match ends with: the last match. */
  function LastIndexOf(ids: seq<string>, id: string): (r: Option<nat>)
    ensures r.None? <==> id !in ids
    ensures r.Some? ==> r.value < |ids| && ids[r.value] == id
    ensures r.Some? ==> forall j :: r.value < j < |ids| ==> ids[j] != id
  {
    if |ids| == 0 then None
    else if ids[|ids| - 1] == id then Some(|ids| - 1)
    else LastIndexOf(ids[..|ids| - 1], id)
  }

  /** With unique ids the first and the last match are the same record. */
  lemma UniqueMatch(ids: seq<string>, id: string)
    requires Unique(ids)
    ensures IndexOf(ids, id) == LastIndexOf(ids, id)
  {
  }

  /**
   * `splice(start, 1)`: removes the element at `start` and keeps the others
   * in order; a start past the end removes nothing.
   */
  function Splice<T>(s: seq<T>, start: nat): (r: seq<T>)
    ensures start < |s| ==> |r| == |s| - 1
    ensures start < |s| ==> forall j :: 0 <= j < start ==> r[j] == s[j]
    ensures start < |s| ==> forall j :: start <= j < |r| ==> r[j] == s[j + 1]
    ensures start >= |s| ==> r == s
  {
    if start < |s| then s[..start] + s[start + 1..] else s
  }
}
