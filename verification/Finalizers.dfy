/** pkg/util/list.go and the finalizer step that relies on it. */
module Finalizers {
  import opened Types

  method ContainsString(list: seq<string>, s: string) returns (found: bool)
    ensures found <==> s in list
  {
    for i := 0 to |list|
      invariant s !in list[..i]
    {
      if list[i] == s {
        return true;
      }
    }
    return false;
  }

  // ---------- RemoveString ----------

  /** Every occurrence removed, order kept: what the name promises. */
  function Without(list: seq<string>, s: string): seq<string> {
    if list == [] then []
    else if list[0] == s then Without(list[1..], s)
    else [list[0]] + Without(list[1..], s)
  }

  /** What the loop yields when it does not panic: shifting left after a removal hides the next element. */
  function Skimmed(list: seq<string>, s: string): seq<string> {
    if list == [] then []
    else if list[0] != s then [list[0]] + Skimmed(list[1..], s)
    else if |list| == 1 then []
    else [list[1]] + Skimmed(list[2..], s)
  }

  function Count(list: seq<string>, s: string): nat {
    if list == [] then 0 else Count(list[1..], s) + if list[0] == s then 1 else 0
  }

  predicate HasAdjacent(list: seq<string>, s: string) {
    exists i :: 0 <= i < |list| - 1 && list[i] == list[i + 1] == s
  }

  /** The slice expression list[i+1:] panics when the last element is removed twice. */
  predicate Panics(list: seq<string>, s: string) {
    Count(list, s) >= 2 && list != [] && list[|list| - 1] == s
  }

  /** The backing array before round i, when len entries are left: the entries not yet visited, shifted by the
      number of removals, then stale copies of the last one. */
  ghost predicate Shifted(list: seq<string>, cur: seq<string>, len: nat, i: nat) {
    && len <= |list| == |cur| && i <= |list|
    && (i <= len ==> cur[i..len] == list[i + (|list| - len)..])
    && forall j :: len <= j < |cur| ==> cur[j] == list[|list| - 1]
  }

  /** The visited part is final. */
  ghost predicate SkimmedSoFar(list: seq<string>, cur: seq<string>, len: nat, i: nat, s: string) {
    && len <= |cur|
    && (i <= len ==> cur[..i] + Skimmed(cur[i..len], s) == Skimmed(list, s))
    && (i >= len ==> cur[..len] == Skimmed(list, s))
  }

  /** Why the loop has not panicked yet. */
  ghost predicate NoPanicYet(list: seq<string>, len: nat, i: nat, s: string) {
    var n := |list|;
    && len <= n && i <= n
    && (len == n ==> s !in list[..i])
    && (len < n && i < n ==> s in list[..n - 1])
    && (i > len && list[n - 1] == s ==> i == len + 1 && (len == n - 1 ==> s !in list[..n - 1]))
  }

  /** The outcome on a list: a panic exactly when it panics, otherwise the skimmed list at the front. */
  ghost predicate IsRemoval(list: seq<string>, cur: seq<string>, r: Outcome<nat>, s: string) {
    if Panics(list, s) then r == Panic else r.Ok? && r.value <= |cur| && cur[..r.value] == Skimmed(list, s)
  }

  ghost predicate LoopInvariant(list: seq<string>, cur: seq<string>, len: nat, i: nat, s: string) {
    Shifted(list, cur, len, i) && SkimmedSoFar(list, cur, len, i, s) && NoPanicYet(list, len, i, s)
  }

  /** The loop in place: it ranges over the original length while each removal shifts the backing array left
      and leaves a stale copy of the last element behind. Returns the new length, or a panic. */
  method RemoveString(backing: array<string>, s: string) returns (r: Outcome<nat>)
    modifies backing
    ensures IsRemoval(old(backing[..]), backing[..], r, s)
  {
    ghost var list := backing[..];
    ghost var cur := list;
    r := Ok(backing.Length);
    LoopStarts(list, s);
    for i := 0 to backing.Length
      invariant cur == backing[..] && r.Ok? && LoopInvariant(list, cur, r.value, i, s)
    {
      r := Round(backing, r.value, i, s, list);
      cur := backing[..];
      if r == Panic {
        return;
      }
    }
    LoopEnds(list, cur, r.value, s);
  }

  /** One round: a panic of the slice expression, or how many entries are left. */
  method Round(backing: array<string>, len: nat, i: nat, s: string, ghost list: seq<string>)
    returns (left: Outcome<nat>)
    requires i < backing.Length && LoopInvariant(list, backing[..], len, i, s)
    modifies backing
    ensures left == Panic ==> IsRemoval(list, backing[..], left, s)
    ensures left != Panic ==> left.Ok? && LoopInvariant(list, backing[..], left.value, i + 1, s)
  {
    if backing[i] != s {
      Keeps(list, backing[..], len, i, s);
      return Ok(len);
    }
    if i + 1 > len {
      LoopPanics(list, backing[..], len, i, s);
      return Panic;
    }
    ghost var cur := backing[..];
    Shift(backing, i, len);
    Drops(list, cur, backing[..], len, i, s);
    return Ok(len - 1);
  }

  lemma LoopStarts(list: seq<string>, s: string)
    ensures LoopInvariant(list, list, |list|, 0, s)
  {
    assert list[0..|list|] == list && list[..0] == [] && list[..|list|] == list;
  }

  lemma LoopPanics(list: seq<string>, cur: seq<string>, len: nat, i: nat, s: string)
    requires LoopInvariant(list, cur, len, i, s) && len <= i < |list| && cur[i] == s
    ensures Panics(list, s)
  {
    LastAndEarlier(list, s);
  }

  lemma LoopEnds(list: seq<string>, cur: seq<string>, len: nat, s: string)
    requires LoopInvariant(list, cur, len, |list|, s)
    ensures IsRemoval(list, cur, Ok(len), s)
  {
    if list != [] {
      LastAndEarlier(list, s);
      assert len == |list| ==> list[..|list|] == list;
    }
  }

  ghost predicate IsDrop(cur: seq<string>, next: seq<string>, len: nat, i: nat)
  {
    && i < len <= |cur| == |next|
    && next[..i] == cur[..i] && next[i..len - 1] == cur[i + 1..len] && next[len - 1..] == cur[len - 1..]
  }

  lemma DropKeepsShape(list: seq<string>, cur: seq<string>, next: seq<string>, len: nat, i: nat)
    requires Shifted(list, cur, len, i) && IsDrop(cur, next, len, i)
    ensures Shifted(list, next, len - 1, i + 1)
  {
    assert cur[len - 1] == list[|list| - 1] by { assert cur[i..len][len - 1 - i] == cur[len - 1]; }
    assert forall j :: len - 1 <= j < |cur| ==> next[j] == next[len - 1..][j - (len - 1)] == cur[j];
    if i + 1 <= len - 1 {
      assert next[i + 1..len - 1] == next[i..len - 1][1..] == cur[i + 1..len][1..] == cur[i..len][2..];
    }
  }

  lemma DropKeepsResult(list: seq<string>, cur: seq<string>, next: seq<string>, len: nat, i: nat, s: string)
    requires SkimmedSoFar(list, cur, len, i, s) && IsDrop(cur, next, len, i) && cur[i] == s
    ensures SkimmedSoFar(list, next, len - 1, i + 1, s)
  {
    var rest := cur[i..len];
    assert rest[0] == s;
    if i + 1 <= len - 1 {
      assert rest[1..] == next[i..len - 1] && rest[1..][1..] == rest[2..];
      assert rest[1] == rest[1..][0] == next[i] && rest[2..] == next[i + 1..len - 1];
      assert next[..i + 1] == next[..i] + [next[i]];
      assert i + 1 == len - 1 ==> rest[2..] == [];
    } else {
      assert rest == [s] && next[..len - 1] == cur[..i] + [];
    }
  }

  lemma DropKeepsCalm(list: seq<string>, cur: seq<string>, len: nat, i: nat, s: string)
    requires Shifted(list, cur, len, i) && NoPanicYet(list, len, i, s) && i < len && cur[i] == s
    ensures NoPanicYet(list, len - 1, i + 1, s)
  {
    var n := |list|;
    assert cur[i] == cur[i..len][0] == list[i + (n - len)];
    if len == n && i < n - 1 {
      assert list[..n - 1][i] == s;
    }
  }

  lemma Drops(list: seq<string>, cur: seq<string>, next: seq<string>, len: nat, i: nat, s: string)
    requires LoopInvariant(list, cur, len, i, s) && IsDrop(cur, next, len, i) && cur[i] == s
    ensures LoopInvariant(list, next, len - 1, i + 1, s)
  {
    DropKeepsShape(list, cur, next, len, i);
    DropKeepsResult(list, cur, next, len, i, s);
    DropKeepsCalm(list, cur, len, i, s);
  }

  lemma Keeps(list: seq<string>, cur: seq<string>, len: nat, i: nat, s: string)
    requires LoopInvariant(list, cur, len, i, s) && i < |cur| && cur[i] != s
    ensures LoopInvariant(list, cur, len, i + 1, s)
  {
    if i < len {
      var rest := cur[i..len];
      assert rest[0] == cur[i] == list[i + (|list| - len)] && rest[1..] == cur[i + 1..len];
      assert cur[..i + 1] == cur[..i] + [cur[i]];
      assert i + 1 == len ==> rest[1..] == [];
    }
    if len == |list| {
      assert list[..i + 1] == list[..i] + [list[i]];
    }
  }

  lemma {:induction false} CountOfParts(a: seq<string>, b: seq<string>, s: string)
    ensures Count(a + b, s) == Count(a, s) + Count(b, s)
  {
    if a == [] {
      assert a + b == b;
    } else {
      assert (a + b)[1..] == a[1..] + b;
      CountOfParts(a[1..], b, s);
    }
  }

  lemma {:induction false} CountIsMembership(list: seq<string>, s: string)
    ensures Count(list, s) > 0 <==> s in list
  {
    if list != [] {
      assert list == [list[0]] + list[1..];
      CountIsMembership(list[1..], s);
    }
  }

  lemma LastAndEarlier(list: seq<string>, s: string)
    requires list != []
    ensures Panics(list, s) <==> list[|list| - 1] == s && s in list[..|list| - 1]
  {
    var init, last := list[..|list| - 1], list[|list| - 1];
    assert list == init + [last];
    CountOfParts(init, [last], s);
    CountIsMembership(init, s);
  }

  /** append(list[:i], list[i+1:]...): moves backing[i+1..len] one place to the left. */
  method Shift(backing: array<string>, i: nat, len: nat)
    requires i < len <= backing.Length
    modifies backing
    ensures IsDrop(old(backing[..]), backing[..], len, i)
  {
    var j := i;
    while j + 1 < len
      invariant i <= j < len
      invariant forall k :: 0 <= k < i ==> backing[k] == old(backing[k])
      invariant forall k :: i <= k < j ==> backing[k] == old(backing[k + 1])
      invariant forall k :: j <= k < backing.Length ==> backing[k] == old(backing[k])
    {
      backing[j] := backing[j + 1];
      j := j + 1;
    }
    assert backing[i..len - 1] == old(backing[i + 1..len]);
  }

  // ---------- When it does what its name says ----------

  lemma {:induction false} SkimmedLeavesAdjacent(list: seq<string>, s: string)
    ensures s in Skimmed(list, s) <==> HasAdjacent(list, s)
    ensures !HasAdjacent(list, s) ==> Skimmed(list, s) == Without(list, s)
  {
    if list != [] {
      if list[0] != s {
        SkimmedLeavesAdjacent(list[1..], s);
        AdjacentShifts(list, s, 1);
      } else if |list| > 1 && list[1] != s {
        SkimmedLeavesAdjacent(list[2..], s);
        AdjacentShifts(list, s, 2);
        assert list[1..][1..] == list[2..];
      } else if |list| > 1 {
        assert list[0] == list[0 + 1] == s;
      }
    }
  }

  lemma AdjacentShifts(list: seq<string>, s: string, d: nat)
    requires d <= |list| && (forall i :: 0 <= i < d && i < |list| - 1 ==> !(list[i] == list[i + 1] == s))
    ensures HasAdjacent(list, s) <==> HasAdjacent(list[d..], s)
  {
    var rest := list[d..];
    if HasAdjacent(list, s) {
      var i :| 0 <= i < |list| - 1 && list[i] == list[i + 1] == s;
      assert rest[i - d] == rest[i - d + 1] == s;
    }
    if HasAdjacent(rest, s) {
      var i :| 0 <= i < |rest| - 1 && rest[i] == rest[i + 1] == s;
      assert list[i + d] == list[i + d + 1] == s;
    }
  }

  lemma {:induction false} NothingLeft(list: seq<string>, s: string)
    ensures s !in Without(list, s)
    ensures s !in list ==> Without(list, s) == list
  {
    if list != [] {
      NothingLeft(list[1..], s);
      assert list == [list[0]] + list[1..];
    }
  }

  /** RemoveString removes every occurrence and keeps the order exactly when no two occurrences are adjacent and
      the last element is not one of several: the other lists keep an occurrence or panic. */
  lemma RemovesAllIff(list: seq<string>, s: string)
    ensures !Panics(list, s) && Skimmed(list, s) == Without(list, s)
            <==> !HasAdjacent(list, s) && !(Count(list, s) >= 2 && list[|list| - 1] == s)
  {
    SkimmedLeavesAdjacent(list, s);
    NothingLeft(list, s);
  }

  lemma AdjacentCountTwice(list: seq<string>, s: string)
    requires HasAdjacent(list, s)
    ensures Count(list, s) >= 2
  {
    var i :| 0 <= i < |list| - 1 && list[i] == list[i + 1] == s;
    assert list == list[..i] + list[i..];
    CountOfParts(list[..i], list[i..], s);
    assert list[i..][1..] == list[i + 1..];
  }

  lemma OnceIsSafe(list: seq<string>, s: string)
    requires Count(list, s) <= 1
    ensures !Panics(list, s) && Skimmed(list, s) == Without(list, s)
  {
    if HasAdjacent(list, s) {
      AdjacentCountTwice(list, s);
    }
    SkimmedLeavesAdjacent(list, s);
  }

  // ---------- The finalizer machine ----------

  const FINALIZER := "finalizer.watermarkpodautoscaler.datadoghq.com"

  /** One handleFinalizer: whether the WPA is marked for deletion, and whether the update succeeds. */
  datatype Visit = Visit(deleted: bool, updateOk: bool)

  /** The stored finalizer list after a visit. */
  function Visited(list: seq<string>, v: Visit): seq<string> {
    if v.deleted && FINALIZER in list && v.updateOk && !Panics(list, FINALIZER) then Skimmed(list, FINALIZER)
    else if !v.deleted && FINALIZER !in list && v.updateOk then list + [FINALIZER]
    else list
  }

  class StoredWpa {
    var finalizers: seq<string>

    constructor (finalizers: seq<string>)
      ensures this.finalizers == finalizers
    {
      this.finalizers := finalizers;
    }

    /** Ok tells whether the reconcile stops here; an update that fails leaves the stored list alone. */
    method HandleFinalizer(v: Visit) returns (stop: Outcome<bool>)
      modifies this
      ensures finalizers == Visited(old(finalizers), v)
      ensures stop == Panic <==> v.deleted && Panics(old(finalizers), FINALIZER)
      ensures stop == Err <==> !v.updateOk && stop != Panic && (v.deleted <==> FINALIZER in old(finalizers))
      ensures stop.Ok? ==> stop.value == v.deleted
    {
      var present := ContainsString(finalizers, FINALIZER);
      if v.deleted {
        if present {
          var backing := new string[|finalizers|](i requires 0 <= i < |finalizers| reads this => finalizers[i]);
          assert backing[..] == finalizers;
          var r := RemoveString(backing, FINALIZER);
          if r.Panic? {
            return Panic;
          }
          if !v.updateOk {
            return Err;
          }
          finalizers := backing[..][..r.value];
        } else {
          AbsentNeverPanics(finalizers, FINALIZER);
        }
        return Ok(true);
      }
      if !present {
        if !v.updateOk {
          return Err;
        }
        finalizers := finalizers + [FINALIZER];
      }
      return Ok(false);
    }
  }

  lemma AbsentNeverPanics(list: seq<string>, s: string)
    requires s !in list
    ensures !Panics(list, s)
  {
    CountIsMembership(list, s);
  }

  function VisitedAll(list: seq<string>, vs: seq<Visit>): seq<string> {
    if vs == [] then list else Visited(VisitedAll(list, vs[..|vs| - 1]), vs[|vs| - 1])
  }

  lemma {:induction false} WithoutOfParts(a: seq<string>, b: seq<string>, s: string)
    ensures Without(a + b, s) == Without(a, s) + Without(b, s)
  {
    if a == [] {
      assert a + b == b;
    } else {
      assert (a + b)[1..] == a[1..] + b;
      WithoutOfParts(a[1..], b, s);
    }
  }

  lemma VisitKeepsOthers(list: seq<string>, v: Visit)
    requires Count(list, FINALIZER) <= 1
    ensures Count(Visited(list, v), FINALIZER) <= 1
    ensures Without(Visited(list, v), FINALIZER) == Without(list, FINALIZER)
    ensures v.deleted && v.updateOk ==> Visited(list, v) == Without(list, FINALIZER)
    ensures !v.deleted && v.updateOk ==> FINALIZER in Visited(list, v)
  {
    OnceIsSafe(list, FINALIZER);
    NothingLeft(list, FINALIZER);
    NothingLeft(Without(list, FINALIZER), FINALIZER);
    CountIsMembership(list, FINALIZER);
    CountIsMembership(Without(list, FINALIZER), FINALIZER);
    CountOfParts(list, [FINALIZER], FINALIZER);
    WithoutOfParts(list, [FINALIZER], FINALIZER);
  }

  /** Over every history of visits that starts with at most one occurrence of the finalizer: there is never
      more than one, no visit panics, the finalizers of others keep their order, and after a successful visit
      of a WPA marked for deletion exactly they are left. */
  lemma {:induction false} FinalizerHistory(list: seq<string>, vs: seq<Visit>)
    requires Count(list, FINALIZER) <= 1
    ensures var r := VisitedAll(list, vs);
            && Count(r, FINALIZER) <= 1 && !Panics(r, FINALIZER)
            && Without(r, FINALIZER) == Without(list, FINALIZER)
            && (vs != [] && vs[|vs| - 1].deleted && vs[|vs| - 1].updateOk ==> r == Without(list, FINALIZER))
  {
    if vs != [] {
      var n := |vs| - 1;
      FinalizerHistory(list, vs[..n]);
      VisitKeepsOthers(VisitedAll(list, vs[..n]), vs[n]);
    }
    OnceIsSafe(VisitedAll(list, vs), FINALIZER);
  }

  /** Removing after adding gives back a list that did not hold the finalizer. */
  lemma AddThenRemove(list: seq<string>)
    requires FINALIZER !in list
    ensures Visited(list, Visit(false, true)) == list + [FINALIZER]
    ensures Visited(Visited(list, Visit(false, true)), Visit(true, true)) == list
  {
    CountIsMembership(list, FINALIZER);
    VisitKeepsOthers(list, Visit(false, true));
    VisitKeepsOthers(list + [FINALIZER], Visit(true, true));
    NothingLeft(list, FINALIZER);
  }
}
