/** The condition list of the WPA status, kept newest-first, and the map it stands for. */
module Conditions {
  import opened Types

  datatype Kind = AbleToScale | ScalingActive | ScalingLimited | DryRun | AboveHigh | BelowLow

  datatype Condition = Condition(kind: Kind, status: bool, since: int, reason: string)

  /** What decisions can depend on: a condition's status and when it last changed. */
  datatype Flag = Flag(status: bool, since: int)

  type Flags = map<Kind, Flag>

  /** Setting a flag keeps its transition time unless the status changes or the flag is new. */
  function SetFlag(flags: Flags, kind: Kind, status: bool, now: int): Flags {
    flags[kind := Flag(status, if kind in flags && flags[kind].status == status then flags[kind].since else now)]
  }

  ghost predicate Distinct(l: seq<Condition>) {
    forall i, j :: 0 <= i < j < |l| ==> l[i].kind != l[j].kind
  }

  ghost predicate NewestFirst(l: seq<Condition>) {
    forall i, j :: 0 <= i < j < |l| ==> l[i].since >= l[j].since
  }

  /** The first condition of the given kind, as getCondition finds it. */
  function Find(l: seq<Condition>, kind: Kind): (r: Option<Condition>)
    ensures r.Some? ==> r.value in l && r.value.kind == kind
    ensures r.None? ==> forall c :: c in l ==> c.kind != kind
  {
    if l == [] then None else if l[0].kind == kind then Some(l[0]) else Find(l[1..], kind)
  }

  /** The map a list stands for. */
  function View(l: seq<Condition>): Flags {
    map k: Kind | Find(l, k).Some? :: Flag(Find(l, k).value.status, Find(l, k).value.since)
  }

  /** The entry written for a kind: the old transition time survives unless the status changes. */
  function Entry(l: seq<Condition>, kind: Kind, status: bool, reason: string, now: int): Condition {
    var prev := Find(l, kind);
    Condition(kind, status, if prev.Some? && prev.value.status == status then prev.value.since else now, reason)
  }

  /** The list with e in place of the first entry of its kind, or at the end when there is none. */
  function Replace(l: seq<Condition>, e: Condition): seq<Condition> {
    if l == [] then [e] else if l[0].kind == e.kind then [e] + l[1..] else [l[0]] + Replace(l[1..], e)
  }

  /** What one set does to a list, up to the order of entries with equal times: sort.Slice is not stable. */
  ghost predicate IsSet(l: seq<Condition>, r: seq<Condition>, kind: Kind, status: bool, reason: string, now: int) {
    NewestFirst(r) && multiset(r) == multiset(Replace(l, Entry(l, kind, status, reason, now)))
  }

  // ---------- Executable form ----------

  method GetCondition(l: seq<Condition>, kind: Kind) returns (r: Option<Condition>)
    ensures r == Find(l, kind)
  {
    for i := 0 to |l|
      invariant Find(l, kind) == Find(l[i..], kind)
    {
      if l[i].kind == kind {
        return Some(l[i]);
      }
    }
    return None;
  }

  method SetConditionInList(l: seq<Condition>, kind: Kind, status: bool, reason: string, now: int)
    returns (r: seq<Condition>)
    ensures IsSet(l, r, kind, status, reason, now)
  {
    var i := 0;
    while i < |l| && l[i].kind != kind
      invariant 0 <= i <= |l|
      invariant forall j :: 0 <= j < i ==> l[j].kind != kind
    {
      i := i + 1;
    }
    FirstOfKind(l, i, kind);
    var entry := Condition(kind, status, now, reason);
    if i < |l| && l[i].status == status {
      entry := entry.(since := l[i].since);
    }
    ReplaceAt(l, i, entry);
    r := SortNewestFirst(if i < |l| then l[i := entry] else l + [entry]);
  }

  lemma {:induction false} FirstOfKind(l: seq<Condition>, i: nat, kind: Kind)
    requires i <= |l| && (forall j :: 0 <= j < i ==> l[j].kind != kind) && (i < |l| ==> l[i].kind == kind)
    ensures Find(l, kind) == if i < |l| then Some(l[i]) else None
  {
    if i > 0 {
      FirstOfKind(l[1..], i - 1, kind);
    }
  }

  lemma {:induction false} ReplaceAt(l: seq<Condition>, i: nat, e: Condition)
    requires i <= |l| && (forall j :: 0 <= j < i ==> l[j].kind != e.kind) && (i < |l| ==> l[i].kind == e.kind)
    ensures Replace(l, e) == if i < |l| then l[i := e] else l + [e]
  {
    if i > 0 {
      ReplaceAt(l[1..], i - 1, e);
      if i < |l| {
        assert l[i := e] == [l[0]] + l[1..][i - 1 := e];
      } else {
        assert l + [e] == [l[0]] + (l[1..] + [e]);
      }
    }
  }

  /** Inserts into a newest-first list, after the entries that are at least as new. */
  function Insert(l: seq<Condition>, e: Condition): seq<Condition> {
    if l == [] then [e]
    else if l[0].since < e.since then [e] + l
    else [l[0]] + Insert(l[1..], e)
  }

  lemma {:induction false} InsertKeepsAll(l: seq<Condition>, e: Condition)
    ensures multiset(Insert(l, e)) == multiset(l) + multiset{e}
  {
    if l != [] && l[0].since >= e.since {
      assert l == [l[0]] + l[1..];
      InsertKeepsAll(l[1..], e);
    }
  }

  lemma {:induction false} InsertKeepsOrder(l: seq<Condition>, e: Condition, top: int)
    requires NewestFirst(l) && e.since <= top && forall i :: 0 <= i < |l| ==> l[i].since <= top
    ensures NewestFirst(Insert(l, e))
    ensures forall i :: 0 <= i < |Insert(l, e)| ==> Insert(l, e)[i].since <= top
  {
    if l != [] && l[0].since >= e.since {
      InsertKeepsOrder(l[1..], e, l[0].since);
    }
  }

  method SortNewestFirst(l: seq<Condition>) returns (r: seq<Condition>)
    ensures NewestFirst(r) && multiset(r) == multiset(l)
  {
    r := [];
    for i := 0 to |l|
      invariant NewestFirst(r) && multiset(r) == multiset(l[..i])
    {
      assert l[..i + 1] == l[..i] + [l[i]];
      InsertKeepsAll(r, l[i]);
      InsertKeepsOrder(r, l[i], if r != [] && r[0].since > l[i].since then r[0].since else l[i].since);
      r := Insert(r, l[i]);
    }
    assert l[..|l|] == l;
  }

  // ---------- The list refines the map ----------

  lemma {:induction false} FindInDistinct(l: seq<Condition>, c: Condition)
    requires Distinct(l) && c in l
    ensures Find(l, c.kind) == Some(c)
  {
    if l[0] != c {
      var i :| 0 <= i < |l| && l[i] == c;
      assert l[1..][i - 1] == c;
      FindInDistinct(l[1..], c);
    }
  }

  lemma {:induction false} OccursOnce(l: seq<Condition>, c: Condition)
    requires Distinct(l)
    ensures multiset(l)[c] <= 1
  {
    if l != [] {
      assert l == [l[0]] + l[1..];
      OccursOnce(l[1..], c);
      assert l[0] !in l[1..];
    }
  }

  lemma OccursTwice(l: seq<Condition>, i: nat, j: nat)
    requires i < j < |l| && l[i] == l[j]
    ensures multiset(l)[l[i]] >= 2
  {
    assert l == l[..j] + l[j..];
    assert l[i] in multiset(l[..j]) && l[j] in multiset(l[j..]) by {
      assert l[..j][i] == l[i] && l[j..][0] == l[j];
    }
  }

  lemma PermutationKeepsDistinct(a: seq<Condition>, b: seq<Condition>)
    requires Distinct(a) && multiset(a) == multiset(b)
    ensures Distinct(b)
  {
    forall i, j | 0 <= i < j < |b|
      ensures b[i].kind != b[j].kind
    {
      assert b[i] in multiset(a) && b[j] in multiset(a);
      if b[i] == b[j] {
        OccursTwice(b, i, j);
        OccursOnce(a, b[i]);
      }
    }
  }

  lemma PermutationFinds(a: seq<Condition>, b: seq<Condition>, k: Kind)
    requires Distinct(b) && multiset(a) == multiset(b) && Find(a, k).Some?
    ensures Find(b, k) == Find(a, k)
  {
    var c := Find(a, k).value;
    assert c in multiset(b);
    FindInDistinct(b, c);
  }

  lemma PermutationKeepsFind(a: seq<Condition>, b: seq<Condition>, k: Kind)
    requires Distinct(a) && Distinct(b) && multiset(a) == multiset(b)
    ensures Find(a, k) == Find(b, k)
  {
    if Find(a, k).Some? {
      PermutationFinds(a, b, k);
    } else if Find(b, k).Some? {
      PermutationFinds(b, a, k);
    }
  }

  lemma {:induction false} ReplaceKeepsOthers(l: seq<Condition>, e: Condition)
    requires Distinct(l)
    ensures Distinct(Replace(l, e))
    ensures forall k :: Find(Replace(l, e), k) == if k == e.kind then Some(e) else Find(l, k)
    ensures forall c :: c in Replace(l, e) ==> c in l || c == e
  {
    if l != [] && l[0].kind != e.kind {
      ReplaceKeepsOthers(l[1..], e);
      var rest := Replace(l[1..], e);
      assert forall i :: 0 <= i < |rest| ==> rest[i] in l[1..] || rest[i] == e;
      assert ([l[0]] + rest)[1..] == rest;
    }
  }

  /** One set on a distinct list: the result is distinct and newest-first, the target's transition time changes
      exactly when its status does, every other entry is untouched, and the list still stands for the map. */
  lemma SetRefinesMap(l: seq<Condition>, r: seq<Condition>, kind: Kind, status: bool, reason: string, now: int)
    requires Distinct(l) && IsSet(l, r, kind, status, reason, now)
    ensures Distinct(r) && NewestFirst(r)
    ensures forall k :: Find(r, k) == if k == kind then Some(Entry(l, kind, status, reason, now)) else Find(l, k)
    ensures View(r) == SetFlag(View(l), kind, status, now)
  {
    var e := Entry(l, kind, status, reason, now);
    var m := Replace(l, e);
    ReplaceKeepsOthers(l, e);
    PermutationKeepsDistinct(m, r);
    forall k ensures Find(r, k) == Find(m, k) { PermutationKeepsFind(m, r, k); }
    ViewFromFind(l, r, e, now);
  }

  lemma ViewFromFind(l: seq<Condition>, r: seq<Condition>, e: Condition, now: int)
    requires forall k :: Find(r, k) == if k == e.kind then Some(e) else Find(l, k)
    requires e == Entry(l, e.kind, e.status, e.reason, now)
    ensures View(r) == SetFlag(View(l), e.kind, e.status, now)
  {
  }

  // ---------- Any sequence of sets ----------

  datatype SetOp = SetOp(kind: Kind, status: bool, reason: string, now: int)

  /** lists[i+1] is obtained from lists[i] by the i-th operation. */
  ghost predicate IsHistory(lists: seq<seq<Condition>>, ops: seq<SetOp>) {
    && |lists| == |ops| + 1
    && forall i :: 0 <= i < |ops| ==>
         IsSet(lists[i], lists[i + 1], ops[i].kind, ops[i].status, ops[i].reason, ops[i].now)
  }

  function ApplyAll(flags: Flags, ops: seq<SetOp>): Flags {
    if ops == [] then flags
    else
      var op := ops[|ops| - 1];
      SetFlag(ApplyAll(flags, ops[..|ops| - 1]), op.kind, op.status, op.now)
  }

  /** Whatever sequence of sets runs, and however ties are ordered, the list stands for the map those sets give. */
  lemma {:induction false} StoreRefinesMap(lists: seq<seq<Condition>>, ops: seq<SetOp>)
    requires IsHistory(lists, ops) && Distinct(lists[0])
    ensures Distinct(lists[|ops|])
    ensures View(lists[|ops|]) == ApplyAll(View(lists[0]), ops)
    ensures ops != [] ==> NewestFirst(lists[|ops|])
  {
    if ops != [] {
      var n := |ops| - 1;
      assert IsHistory(lists[..n + 1], ops[..n]);
      StoreRefinesMap(lists[..n + 1], ops[..n]);
      SetRefinesMap(lists[n], lists[n + 1], ops[n].kind, ops[n].status, ops[n].reason, ops[n].now);
    }
  }
}
