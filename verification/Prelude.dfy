/** Shared vocabulary: optional values and the identifiers the stores are keyed by. */
module Prelude {
  datatype Option<+T> = None | Some(value: T)

  /** A session, connection or channel identifier; the backend issues them as UUIDs. */
  type Id = string

  type Byte = n: nat | n < 256

  /** One chunk of terminal output. */
  type Chunk = seq<Byte>

  /** The one fact about UUIDs the stores rely on: they contain no colon. */
  predicate ColonFree(s: string) {
    ':' !in s
  }

  /** One element stands before another. */
  ghost predicate Before<T>(s: seq<T>, x: T, y: T) {
    exists i, j :: 0 <= i < j < |s| && s[i] == x && s[j] == y
  }

  lemma BeforeCons<T>(h: T, rest: seq<T>, x: T, y: T)
    ensures Before([h] + rest, x, y) <==> (h == x && y in rest) || Before(rest, x, y)
  {
    var s := [h] + rest;
    if Before(rest, x, y) {
      var i, j :| 0 <= i < j < |rest| && rest[i] == x && rest[j] == y;
      assert s[i + 1] == x && s[j + 1] == y;
    }
    if h == x && y in rest {
      var j :| 0 <= j < |rest| && rest[j] == y;
      assert s[0] == x && s[j + 1] == y;
    }
    if Before(s, x, y) && !(h == x && y in rest) {
      var i, j :| 0 <= i < j < |s| && s[i] == x && s[j] == y;
      assert rest[j - 1] == y && (i > 0 ==> rest[i - 1] == x);
    }
  }

  /** What is left of a list when some elements go: the others, all of them and in their order. */
  ghost predicate Filtered<T(!new)>(before: seq<T>, after: seq<T>, keep: T -> bool) {
    && (forall x :: x in after <==> x in before && keep(x))
    && (forall x, y :: keep(x) && keep(y) ==> (Before(after, x, y) <==> Before(before, x, y)))
  }

  /** One element at a time: whether the first goes or stays. */
  lemma FilteredCons<T(!new)>(h: T, before: seq<T>, after: seq<T>, keep: T -> bool)
    requires Filtered(before, after, keep)
    ensures Filtered([h] + before, (if keep(h) then [h] else []) + after, keep)
  {
    var b, a := [h] + before, (if keep(h) then [h] else []) + after;
    if !keep(h) { assert a == after; }
    forall x, y | keep(x) && keep(y) ensures Before(a, x, y) <==> Before(b, x, y) {
      BeforeCons(h, before, x, y);
      BeforeCons(h, after, x, y);
    }
  }
}
