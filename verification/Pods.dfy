/** Pod accounting: which pods count as ready, which are ignored, and whose metrics are summed. */
module Pods {
  import opened Math32
  import opened Types

  datatype OwnerRef = OwnerRef(kind: string, name: string)
  datatype Phase = Pending | Running | Succeeded | Failed | Unknown
  datatype ReadyCondition = ReadyCondition(isTrue: bool, isFalse: bool, since: int)

  datatype Pod = Pod(
    name: string,
    owners: seq<OwnerRef>,
    phase: Phase,
    readiness: Option<ReadyCondition>,
    startTime: Option<int>,
    deleted: bool)

  datatype PodClass = Incorrect | Ready | Unready
  datatype PodGroup = Foreign | Ignored | Missing | Counted

  // ---------- Ownership ----------

  /** Everything before the last '-', or the whole name when there is none. */
  function StripSuffix(name: string): (r: string)
    ensures r <= name
    ensures '-' !in name ==> r == name
    ensures '-' in name ==> |r| < |name| && name[|r|] == '-' && '-' !in name[|r| + 1..]
  {
    LastDash(name, |name|)
  }

  function LastDash(name: string, i: nat): (r: string)
    requires i <= |name| && '-' !in name[i..]
    ensures r <= name
    ensures '-' !in name ==> r == name
    ensures '-' in name ==> |r| < |name| && name[|r|] == '-' && '-' !in name[|r| + 1..]
  {
    if i == 0 then name
    else if name[i - 1] == '-' then name[..i - 1]
    else LastDash(name, i - 1)
  }

  function MainOwner(o: OwnerRef): string {
    if o.kind == "ReplicaSet" then StripSuffix(o.name) else o.name
  }

  predicate OwnedBy(owners: seq<OwnerRef>, target: string) {
    exists o :: o in owners && MainOwner(o) == target
  }

  /** The owner is the target itself, or a replica set whose name is the target's with one generated suffix. */
  ghost predicate Owns(o: OwnerRef, target: string) {
    if o.kind == "ReplicaSet" && '-' in o.name
    then exists suffix :: '-' !in suffix && o.name == target + "-" + suffix
    else o.name == target
  }

  lemma MainOwnerIff(o: OwnerRef, target: string)
    ensures MainOwner(o) == target <==> Owns(o, target)
  {
    if o.kind == "ReplicaSet" && '-' in o.name {
      var name, r := o.name, StripSuffix(o.name);
      assert name == r + "-" + name[|r| + 1..];
      if suffix :| '-' !in suffix && name == target + "-" + suffix {
        assert name[|target|] == '-' && name[|target| + 1..] == suffix;
        assert |r| == |target|;
        assert r == name[..|r|] && target == name[..|target|];
      }
    }
  }

  lemma OwnedByIff(owners: seq<OwnerRef>, target: string)
    ensures OwnedBy(owners, target) <==> exists o :: o in owners && Owns(o, target)
  {
    forall o ensures MainOwner(o) == target <==> Owns(o, target) {
      MainOwnerIff(o, target);
    }
  }

  method CheckOwnerRef(owners: seq<OwnerRef>, target: string) returns (ok: bool)
    ensures ok <==> OwnedBy(owners, target)
    ensures ok <==> exists o :: o in owners && Owns(o, target)
  {
    OwnedByIff(owners, target);
    for i := 0 to |owners|
      invariant forall j :: 0 <= j < i ==> MainOwner(owners[j]) != target
    {
      if MainOwner(owners[i]) == target {
        return true;
      }
    }
    return false;
  }

  // ---------- Counting ready pods ----------

  function Classify(cfg: Config, p: Pod, now: int): PodClass {
    if !cfg.skipOwnerCheck && !OwnedBy(p.owners, cfg.targetName) then Incorrect
    else if p.phase.Failed? || p.phase.Succeeded? then Incorrect
    else if p.readiness.None? || p.startTime.None? || p.deleted then Unready
    else if p.phase.Running? && p.readiness.value.isTrue then Ready
    else if p.phase.Pending? && now - p.readiness.value.since < cfg.readinessDelay then Ready
    else Unready
  }

  /** How many pods of the list fall into class c. */
  function Tally(cfg: Config, pods: seq<Pod>, now: int, c: PodClass): nat {
    if pods == [] then 0
    else
      var last := |pods| - 1;
      Tally(cfg, pods[..last], now, c) + if Classify(cfg, pods[last], now) == c then 1 else 0
  }

  /** The pod belongs to the target, or the owner check is skipped. */
  ghost predicate Ours(cfg: Config, p: Pod) {
    cfg.skipOwnerCheck || exists o :: o in p.owners && Owns(o, cfg.targetName)
  }

  /** It can become ready: not on its way out, scheduled, and with a Ready condition to look at. */
  predicate CanBeReady(p: Pod) { !p.deleted && p.startTime.Some? && p.readiness.Some? }

  predicate HasEnded(p: Pod) { p.phase.Failed? || p.phase.Succeeded? }

  /** What one more pod adds to the two counts: foreign and ended pods count as incorrect and nothing else; any other
      pod counts as ready or not at all, when it can be ready and runs with a true Ready condition, or has been pending
      for less than the readiness delay. */
  lemma OnePodMore(cfg: Config, pods: seq<Pod>, p: Pod, now: int)
    ensures var ready := Tally(cfg, pods + [p], now, Ready) - Tally(cfg, pods, now, Ready);
            var incorrect := Tally(cfg, pods + [p], now, Incorrect) - Tally(cfg, pods, now, Incorrect);
            && 0 <= ready <= 1 && 0 <= incorrect <= 1
            && (incorrect == 1 <==> !Ours(cfg, p) || HasEnded(p))
            && (incorrect == 1 ==> ready == 0)
            && (!CanBeReady(p) || p.phase.Unknown? ==> ready == 0)
            && (incorrect == 0 && CanBeReady(p) && p.phase.Running? ==> (ready == 1 <==> p.readiness.value.isTrue))
            && (incorrect == 0 && CanBeReady(p) && p.phase.Pending? ==>
                  (ready == 1 <==> now - p.readiness.value.since < cfg.readinessDelay))
  {
    assert (pods + [p])[..|pods|] == pods;
    OwnedByIff(p.owners, cfg.targetName);
  }

  lemma {:induction false} TallyPartitions(cfg: Config, pods: seq<Pod>, now: int)
    ensures Tally(cfg, pods, now, Incorrect) + Tally(cfg, pods, now, Ready) + Tally(cfg, pods, now, Unready) == |pods|
  {
    if pods != [] {
      TallyPartitions(cfg, pods[..|pods| - 1], now);
    }
  }

  /** getReadyPodsCount: an error when nothing is ready; otherwise the divisor of the ready ratio is positive. */
  method GetReadyPodsCount(cfg: Config, pods: seq<Pod>, now: int) returns (ready: nat, incorrect: nat, ok: bool)
    ensures incorrect == Tally(cfg, pods, now, Incorrect)
    ensures ready == Tally(cfg, pods, now, Ready)
    ensures ready + incorrect + Tally(cfg, pods, now, Unready) == |pods|
    ensures ok <==> exists p :: p in pods && Classify(cfg, p, now) == Ready
    ensures ok ==> |pods| - incorrect >= ready > 0
  {
    ready, incorrect := 0, 0;
    for i := 0 to |pods|
      invariant incorrect == Tally(cfg, pods[..i], now, Incorrect)
      invariant ready == Tally(cfg, pods[..i], now, Ready)
      invariant ready > 0 <==> exists j :: 0 <= j < i && Classify(cfg, pods[j], now) == Ready
    {
      assert pods[..i + 1][..i] == pods[..i];
      var p := pods[i];
      var counted := true;
      if !cfg.skipOwnerCheck {
        var owned := CheckOwnerRef(p.owners, cfg.targetName);
        if !owned {
          incorrect := incorrect + 1;
          counted := false;
        }
      }
      if counted {
        if p.phase.Failed? || p.phase.Succeeded? {
          incorrect := incorrect + 1;
        } else if p.readiness.Some? && p.startTime.Some? && !p.deleted {
          if (p.phase.Running? && p.readiness.value.isTrue)
             || (p.phase.Pending? && now - p.readiness.value.since < cfg.readinessDelay) {
            ready := ready + 1;
          }
        }
      }
    }
    assert pods[..|pods|] == pods;
    ok := ready != 0;
    TallyPartitions(cfg, pods, now);
  }

  /** The ready percentage stays within 0..100, also after the count was capped by the reported replicas. */
  lemma ReadyRatioIsPercentage(cfg: Config, pods: seq<Pod>, now: int, status: nat)
    requires Tally(cfg, pods, now, Ready) > 0
    ensures var ready := Tally(cfg, pods, now, Ready);
            var capped := if ready > status then status else ready;
            var divisor := |pods| - Tally(cfg, pods, now, Incorrect);
            divisor > 0 && 0 <= 100 * capped / divisor <= 100
  {
    TallyPartitions(cfg, pods, now);
    var ready := Tally(cfg, pods, now, Ready);
    QuotientIsBounded(100 * (if ready > status then status else ready), |pods| - Tally(cfg, pods, now, Incorrect), 100);
  }

  // ---------- Grouping pods for resource metrics ----------

  function GroupOf(cfg: Config, p: Pod, usage: map<string, int>, cpu: bool): PodGroup {
    if !cfg.skipOwnerCheck && !OwnedBy(p.owners, cfg.targetName) then Foreign
    else if p.phase.Failed? || p.phase.Pending? then Ignored
    else if p.name !in usage then Missing
    else if cpu && (p.readiness.None? || p.startTime.None?) then Ignored
    else if cpu && (p.readiness.value.isFalse
                    || p.startTime.value + cfg.readinessDelay > p.readiness.value.since) then Ignored
    else Counted
  }

  /** A pod reduced to what grouping looks at. */
  datatype Tag = Tag(name: string, group: PodGroup)

  function Tags(cfg: Config, pods: seq<Pod>, usage: map<string, int>, cpu: bool): seq<Tag> {
    seq(|pods|, i requires 0 <= i < |pods| => Tag(pods[i].name, GroupOf(cfg, pods[i], usage, cpu)))
  }

  function NamesIn(tags: seq<Tag>, g: PodGroup): set<string> {
    if tags == [] then {}
    else
      var last := |tags| - 1;
      NamesIn(tags[..last], g) + if tags[last].group == g then {tags[last].name} else {}
  }

  ghost predicate UniqueNames(tags: seq<Tag>) {
    forall i, j :: 0 <= i < j < |tags| ==> tags[i].name != tags[j].name
  }

  /** Its metric does not count for a cpu reading: not ready, or not since long enough after its start. */
  predicate IsWarmingUp(cfg: Config, p: Pod) {
    || p.readiness.None? || p.startTime.None? || p.readiness.value.isFalse
    || p.readiness.value.since < p.startTime.value + cfg.readinessDelay
  }

  /** Where one more pod goes: nowhere when it is foreign; to the ignored when it has failed or is pending; nowhere
      without a metric; to the ignored while it warms up, for cpu only; to the ready otherwise. */
  lemma OnePodMoreGrouped(cfg: Config, pods: seq<Pod>, p: Pod, usage: map<string, int>, cpu: bool)
    ensures var before, after := Tags(cfg, pods, usage, cpu), Tags(cfg, pods + [p], usage, cpu);
            var stopped := p.phase.Failed? || p.phase.Pending?;
            var warming := p.name in usage && cpu && IsWarmingUp(cfg, p);
            && NamesIn(after, Ignored) ==
               NamesIn(before, Ignored) + (if Ours(cfg, p) && (stopped || warming) then {p.name} else {})
            && NamesIn(after, Counted) ==
               NamesIn(before, Counted)
               + (if Ours(cfg, p) && !stopped && p.name in usage && !warming then {p.name} else {})
  {
    var before, after := Tags(cfg, pods, usage, cpu), Tags(cfg, pods + [p], usage, cpu);
    assert after[..|pods|] == before;
    OwnedByIff(p.owners, cfg.targetName);
  }

  lemma {:induction false} NamesFit(tags: seq<Tag>, g: PodGroup)
    ensures |NamesIn(tags, g)| <= |tags|
  {
    if tags != [] {
      NamesFit(tags[..|tags| - 1], g);
    }
  }

  method GroupPods(cfg: Config, pods: seq<Pod>, usage: map<string, int>, cpu: bool)
    returns (ready: set<string>, ignored: set<string>)
    ensures ready == NamesIn(Tags(cfg, pods, usage, cpu), Counted)
    ensures ignored == NamesIn(Tags(cfg, pods, usage, cpu), Ignored)
  {
    ready, ignored := {}, {};
    ghost var tags := Tags(cfg, pods, usage, cpu);
    for i := 0 to |pods|
      invariant ready == NamesIn(tags[..i], Counted)
      invariant ignored == NamesIn(tags[..i], Ignored)
    {
      assert tags[..i + 1][..i] == tags[..i];
      var p := pods[i];
      var owned := true;
      if !cfg.skipOwnerCheck {
        owned := CheckOwnerRef(p.owners, cfg.targetName);
      }
      if owned {
        if p.phase.Failed? || p.phase.Pending? {
          ignored := ignored + {p.name};
        } else if p.name in usage {
          var ignorePod := false;
          if cpu {
            if p.readiness.None? || p.startTime.None? {
              ignorePod := true;
            } else {
              ignorePod := p.readiness.value.isFalse
              || p.startTime.value + cfg.readinessDelay > p.readiness.value.since;
            }
          }
          if ignorePod {
            ignored := ignored + {p.name};
          } else {
            ready := ready + {p.name};
          }
        }
      }
    }
    assert tags[..|tags|] == tags;
  }

  lemma {:induction false} NamesComeFromTags(tags: seq<Tag>, g: PodGroup, name: string)
    ensures name in NamesIn(tags, g) <==> Tag(name, g) in tags
  {
    if tags != [] {
      var last := |tags| - 1;
      NamesComeFromTags(tags[..last], g, name);
      assert tags == tags[..last] + [tags[last]];
    }
  }

  lemma LastNameIsFresh(tags: seq<Tag>, g: PodGroup)
    requires tags != [] && UniqueNames(tags)
    ensures UniqueNames(tags[..|tags| - 1])
    ensures tags[|tags| - 1].name !in NamesIn(tags[..|tags| - 1], g)
    ensures |NamesIn(tags, g)| == |NamesIn(tags[..|tags| - 1], g)| + if tags[|tags| - 1].group == g then 1 else 0
  {
    NamesComeFromTags(tags[..|tags| - 1], g, tags[|tags| - 1].name);
  }

  /** Two groups of a list with unique names fit in the list together. */
  lemma {:induction false} GroupsFit(tags: seq<Tag>, g: PodGroup, h: PodGroup)
    requires UniqueNames(tags) && g != h
    ensures |NamesIn(tags, g)| + |NamesIn(tags, h)| <= |tags|
  {
    if tags != [] {
      LastNameIsFresh(tags, g);
      LastNameIsFresh(tags, h);
      GroupsFit(tags[..|tags| - 1], g, h);
    }
  }

  ghost predicate AllIn(tags: seq<Tag>, g: PodGroup) {
    forall i :: 0 <= i < |tags| ==> tags[i].group == g
  }

  lemma AllInSplits(tags: seq<Tag>, g: PodGroup)
    requires tags != []
    ensures AllIn(tags, g) <==> AllIn(tags[..|tags| - 1], g) && tags[|tags| - 1].group == g
  {
    assert forall i :: 0 <= i < |tags| - 1 ==> tags[..|tags| - 1][i] == tags[i];
  }

  /** One group fills the list exactly when every entry belongs to it. */
  lemma {:induction false} GroupFills(tags: seq<Tag>, g: PodGroup)
    requires UniqueNames(tags)
    ensures |NamesIn(tags, g)| <= |tags|
    ensures |NamesIn(tags, g)| == |tags| <==> AllIn(tags, g)
  {
    if tags != [] {
      var init := tags[..|tags| - 1];
      LastNameIsFresh(tags, g);
      GroupFills(init, g);
      AllInSplits(tags, g);
    }
  }

  lemma GroupsAreDisjoint(tags: seq<Tag>, g: PodGroup, h: PodGroup)
    requires UniqueNames(tags) && g != h
    ensures NamesIn(tags, g) !! NamesIn(tags, h)
  {
    forall name
      ensures !(name in NamesIn(tags, g) && name in NamesIn(tags, h))
    {
      NamesComeFromTags(tags, g, name);
      NamesComeFromTags(tags, h, name);
    }
  }

  /** With unique names, ready, ignored and missing pods are three disjoint groups that fit in the list;
      removing the metrics of ignored pods keeps the metric of every ready pod; and the resource ratio divides
      by zero exactly when every pod is ignored. */
  lemma PodAccounting(cfg: Config, pods: seq<Pod>, usage: map<string, int>, cpu: bool)
    requires UniqueNames(Tags(cfg, pods, usage, cpu))
    ensures var tags := Tags(cfg, pods, usage, cpu);
            var ready, ignored, missing := NamesIn(tags, Counted), NamesIn(tags, Ignored), NamesIn(tags, Missing);
            && ready !! ignored && ready !! missing && ignored !! missing
            && |ready| + |ignored| <= |pods|
            && ready <= (usage - ignored).Keys
            && (|pods| - |ignored| == 0 <==> AllIn(tags, Ignored))
  {
    var tags := Tags(cfg, pods, usage, cpu);
    GroupsAreDisjoint(tags, Counted, Ignored);
    GroupsAreDisjoint(tags, Counted, Missing);
    GroupsAreDisjoint(tags, Ignored, Missing);
    GroupsFit(tags, Counted, Ignored);
    GroupFills(tags, Ignored);
    forall name | name in NamesIn(tags, Counted)
      ensures name in usage
    {
      NamesComeFromTags(tags, Counted, name);
    }
  }

  // ---------- Summing ----------

  function Sum(values: seq<int>): int {
    if values == [] then 0 else Sum(values[..|values| - 1]) + values[|values| - 1]
  }

  /** Sums add up over any split. */
  lemma {:induction false} SumOfParts(a: seq<int>, b: seq<int>)
    ensures Sum(a + b) == Sum(a) + Sum(b)
  {
    if b == [] {
      assert a + b == a;
    } else {
      assert (a + b)[..|a + b| - 1] == a + b[..|b| - 1];
      SumOfParts(a, b[..|b| - 1]);
    }
  }

  lemma SumOfOne(x: int)
    ensures Sum([x]) == x && Sum([]) == 0
  {
    assert [x][..0] == [];
  }

  method SumValues(values: seq<int>) returns (sum: int)
    ensures sum == Sum(values)
  {
    sum := 0;
    for i := 0 to |values|
      invariant sum == Sum(values[..i])
    {
      assert values[..i + 1][..i] == values[..i];
      sum := sum + values[i];
    }
    assert values[..|values|] == values;
  }

  /** The total of a metric map, independent of the order in which Go ranges over it. */
  ghost function Total(usage: map<string, int>): int {
    if usage == map[] then 0
    else
      var k :| k in usage;
      usage[k] + Total(usage - {k})
  }

  lemma {:induction false} TotalWithout(usage: map<string, int>, k: string)
    requires k in usage
    ensures Total(usage) == usage[k] + Total(usage - {k})
  {
    var c :| c in usage && Total(usage) == usage[c] + Total(usage - {c});
    if c != k {
      TotalWithout(usage - {c}, k);
      TotalWithout(usage - {k}, c);
      assert usage - {c} - {k} == usage - {k} - {c};
    }
  }

  lemma TotalOfOne(k: string, v: int)
    ensures Total(map[k := v]) == v && Total(map[]) == 0
  {
    TotalWithout(map[k := v], k);
    assert map[k := v] - {k} == map[];
  }

  method SumUsage(usage: map<string, int>) returns (sum: int)
    ensures sum == Total(usage)
  {
    sum := 0;
    var rest := usage;
    while rest != map[]
      invariant sum + Total(rest) == Total(usage)
      decreases |rest|
    {
      var k :| k in rest;
      TotalWithout(rest, k);
      assert |(rest - {k}).Keys| < |rest.Keys| by { assert (rest - {k}).Keys == rest.Keys - {k}; }
      sum, rest := sum + rest[k], rest - {k};
    }
  }

  /** removeMetricsForPods deletes key by key; the result does not depend on the order. */
  method RemoveMetricsForPods(usage: map<string, int>, pods: set<string>) returns (r: map<string, int>)
    ensures r == usage - pods
  {
    r := usage;
    var todo := pods;
    while todo != {}
      invariant todo <= pods
      invariant r == usage - (pods - todo)
    {
      var name :| name in todo;
      r := r - {name};
      todo := todo - {name};
      assert pods - todo == pods - (todo + {name}) + {name};
    }
  }
}
