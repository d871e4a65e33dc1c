/**
 pkg/configurator/configurator.go: one kubelet pod for each Slurm partition. A pass compares the partitions with a
 listing of the virtual nodes, which may be out of date, and stops at the first call that fails.
 */
module Partitions {
  import opened Kubernetes

  function PodName(partition: string): string { "slurm-partition-" + partition }

  lemma PodNamesDiffer(p: string, q: string)
    ensures PodName(p) == PodName(q) <==> p == q
  {
    assert PodName(p)[|"slurm-partition-"|..] == p && PodName(q)[|"slurm-partition-"|..] == q;
  }

  function PodNames(partitions: seq<string>): set<string> {
    set i | 0 <= i < |partitions| :: PodName(partitions[i])
  }

  /** The elements of s1 that are not in s2, in their order. */
  function Minus(s1: seq<string>, s2: seq<string>): seq<string>
    decreases |s1|
  {
    if s1 == [] then []
    else
      var n := |s1| - 1;
      Minus(s1[..n], s2) + if s1[n] in s2 then [] else [s1[n]]
  }

  method Contains(s: seq<string>, e: string) returns (found: bool)
    ensures found <==> e in s
  {
    for i := 0 to |s|
      invariant e !in s[..i]
    {
      if e == s[i] {
        return true;
      }
    }
    return false;
  }

  method NotIn(s1: seq<string>, s2: seq<string>) returns (r: seq<string>)
    ensures r == Minus(s1, s2)
  {
    r := [];
    for i := 0 to |s1|
      invariant r == Minus(s1[..i], s2)
    {
      assert s1[..i + 1][..i] == s1[..i];
      var found := Contains(s2, s1[i]);
      if found {
        continue;
      }
      r := r + [s1[i]];
    }
    assert s1[..|s1|] == s1;
  }

  /** Failing calls: listing the nodes, and get, create and delete of the pods of partitions. */
  datatype Outage = Outage(list: bool, get: set<string>, create: string -> Reply, delete: string -> Reply)

  datatype Outcome = Outcome(pods: set<string>, ok: bool)

  function CreateAll(pods: set<string>, partitions: seq<string>, f: Outage): Outcome
    decreases |partitions|
  {
    if partitions == [] then Outcome(pods, true)
    else
      var p := partitions[0];
      if p in f.get then Outcome(pods, false)
      else if PodName(p) in pods then CreateAll(pods, partitions[1..], f)
      else
        match f.create(p)
        case Done => CreateAll(pods + {PodName(p)}, partitions[1..], f)
        case Refused => Outcome(pods, false)
        case Lost => Outcome(pods + {PodName(p)}, false)
  }

  /** Deleting a pod that is not there fails too. */
  function DeleteAll(pods: set<string>, nodes: seq<string>, f: Outage): Outcome
    decreases |nodes|
  {
    if nodes == [] then Outcome(pods, true)
    else
      var n := nodes[0];
      if PodName(n) !in pods then Outcome(pods, false)
      else
        match f.delete(n)
        case Done => DeleteAll(pods - {PodName(n)}, nodes[1..], f)
        case Refused => Outcome(pods, false)
        case Lost => Outcome(pods - {PodName(n)}, false)
  }

  function ReconcileAll(pods: set<string>, wanted: seq<string>, listed: seq<string>, f: Outage): Outcome {
    if f.list then Outcome(pods, false)
    else
      var created := CreateAll(pods, Minus(wanted, listed), f);
      if !created.ok then created else DeleteAll(created.pods, Minus(listed, wanted), f)
  }

  class Configurator {
    var pods: set<string>

    method ReconcileCreateNodeForPartition(partitions: seq<string>, f: Outage) returns (ok: bool)
      modifies this
      ensures Outcome(pods, ok) == CreateAll(old(pods), partitions, f)
    {
      for i := 0 to |partitions|
        invariant CreateAll(pods, partitions[i..], f) == CreateAll(old(pods), partitions, f)
      {
        var p := partitions[i];
        assert partitions[i..][0] == p && partitions[i..][1..] == partitions[i + 1..];
        if p !in f.get && PodName(p) in pods {
          continue;
        }
        if p in f.get {
          return false;
        }
        if f.create(p) != Refused {
          pods := pods + {PodName(p)};
        }
        if f.create(p) != Done {
          return false;
        }
      }
      return true;
    }

    method ReconcileDeleteControllingPod(nodes: seq<string>, f: Outage) returns (ok: bool)
      modifies this
      ensures Outcome(pods, ok) == DeleteAll(old(pods), nodes, f)
    {
      for i := 0 to |nodes|
        invariant DeleteAll(pods, nodes[i..], f) == DeleteAll(old(pods), nodes, f)
      {
        var nodeName := PodName(nodes[i]);
        assert nodes[i..][0] == nodes[i] && nodes[i..][1..] == nodes[i + 1..];
        if nodeName !in pods {
          return false;
        }
        if f.delete(nodes[i]) != Refused {
          pods := pods - {nodeName};
        }
        if f.delete(nodes[i]) != Done {
          return false;
        }
      }
      return true;
    }

    method Reconcile(wanted: seq<string>, listed: seq<string>, f: Outage) returns (ok: bool)
      modifies this
      ensures Outcome(pods, ok) == ReconcileAll(old(pods), wanted, listed, f)
    {
      hide CreateAll, DeleteAll;
      if f.list {
        return false;
      }
      var partitionToCreate := NotIn(wanted, listed);
      ok := ReconcileCreateNodeForPartition(partitionToCreate, f);
      if !ok {
        return;
      }
      var nodesToDelete := NotIn(listed, wanted);
      ok := ReconcileDeleteControllingPod(nodesToDelete, f);
    }
  }

  // No pass moves away from the goal

  lemma {:induction false} MinusHas(s1: seq<string>, s2: seq<string>, e: string)
    ensures e in Minus(s1, s2) <==> e in s1 && e !in s2
    decreases |s1|
  {
    if s1 != [] {
      var n := |s1| - 1;
      MinusHas(s1[..n], s2, e);
      assert s1 == s1[..n] + [s1[n]];
    }
  }

  /** Element by element, each as often as it is listed and in the order of the list. */
  lemma {:induction false} MinusAppend(a: seq<string>, b: seq<string>, s2: seq<string>)
    ensures Minus(a + b, s2) == Minus(a, s2) + Minus(b, s2)
    decreases |b|
  {
    if b == [] {
      assert a + b == a;
    } else {
      var n := |b| - 1;
      MinusAppend(a, b[..n], s2);
      assert (a + b)[..|a + b| - 1] == a + b[..n];
    }
  }

  lemma MinusOne(e: string, s2: seq<string>)
    ensures Minus([e], s2) == if e in s2 then [] else [e]
  {
    assert [e][..0] == [];
  }

  lemma InPodNames(partitions: seq<string>, p: string)
    ensures PodName(p) in PodNames(partitions) <==> p in partitions
  {
    if PodName(p) in PodNames(partitions) {
      var i :| 0 <= i < |partitions| && PodName(partitions[i]) == PodName(p);
      PodNamesDiffer(partitions[i], p);
    }
  }

  /** What the pods lack, and what they have too much. */
  function Drift(pods: set<string>, goal: set<string>): set<string> { (pods - goal) + (goal - pods) }

  lemma {:induction false} CreateOnlyHelps(pods: set<string>, partitions: seq<string>, f: Outage, goal: set<string>)
    requires forall p | p in partitions :: PodName(p) in goal
    ensures Drift(CreateAll(pods, partitions, f).pods, goal) <= Drift(pods, goal)
    ensures pods <= CreateAll(pods, partitions, f).pods
    decreases |partitions|
  {
    if partitions != [] {
      var p := partitions[0];
      assert p in partitions;
      if p !in f.get {
        CreateOnlyHelps(if PodName(p) in pods then pods else pods + {PodName(p)}, partitions[1..], f, goal);
      }
    }
  }

  lemma {:induction false} DeleteOnlyHelps(pods: set<string>, nodes: seq<string>, f: Outage, goal: set<string>)
    requires forall n | n in nodes :: PodName(n) !in goal
    ensures Drift(DeleteAll(pods, nodes, f).pods, goal) <= Drift(pods, goal)
    ensures pods - DeleteAll(pods, nodes, f).pods <= PodNames(nodes)
    decreases |nodes|
  {
    if nodes != [] {
      var n := nodes[0];
      assert n in nodes;
      InPodNames(nodes, n);
      if PodName(n) in pods {
        DeleteOnlyHelps(pods - {PodName(n)}, nodes[1..], f, goal);
        MoreNames(nodes);
      }
    }
  }

  lemma MoreNames(nodes: seq<string>)
    requires nodes != []
    ensures PodNames(nodes[1..]) <= PodNames(nodes)
  {
    forall x | x in PodNames(nodes[1..]) ensures x in PodNames(nodes) {
      var i :| 0 <= i < |nodes[1..]| && PodName(nodes[1..][i]) == x;
      assert PodName(nodes[i + 1]) == x;
    }
  }

  lemma OnlyWantedCreated(wanted: seq<string>, listed: seq<string>)
    ensures forall p | p in Minus(wanted, listed) :: PodName(p) in PodNames(wanted)
    ensures forall n | n in Minus(listed, wanted) :: PodName(n) !in PodNames(wanted)
  {
    hide Minus, PodName, PodNames;
    forall p | p in Minus(wanted, listed) ensures PodName(p) in PodNames(wanted) {
      MinusHas(wanted, listed, p);
      InPodNames(wanted, p);
    }
    forall n | n in Minus(listed, wanted) ensures PodName(n) !in PodNames(wanted) {
      MinusHas(listed, wanted, n);
      InPodNames(wanted, n);
    }
  }

  /** Whatever the listing says and wherever the pass stops, no pod is wrong afterwards that was right before. */
  lemma NeverFurtherAway(pods: set<string>, wanted: seq<string>, listed: seq<string>, f: Outage)
    ensures Drift(ReconcileAll(pods, wanted, listed, f).pods, PodNames(wanted)) <= Drift(pods, PodNames(wanted))
  {
    hide CreateAll, DeleteAll, Minus, PodNames, PodName, Drift;
    OnlyWantedCreated(wanted, listed);
    var toCreate, toDelete := Minus(wanted, listed), Minus(listed, wanted);
    CreateOnlyHelps(pods, toCreate, f, PodNames(wanted));
    DeleteOnlyHelps(CreateAll(pods, toCreate, f).pods, toDelete, f, PodNames(wanted));
  }

  // With a true listing a pass without failures reaches the goal

  ghost predicate NoOutage(f: Outage) {
    !f.list && f.get == {} && forall p :: f.create(p) == Done && f.delete(p) == Done
  }

  predicate Distinct(s: seq<string>) { forall i, j | 0 <= i < j < |s| :: s[i] != s[j] }

  lemma PodNamesCons(s: seq<string>)
    requires s != []
    ensures PodNames(s) == {PodName(s[0])} + PodNames(s[1..])
  {
    MoreNames(s);
    forall x | x in PodNames(s) ensures x == PodName(s[0]) || x in PodNames(s[1..]) {
      var i :| 0 <= i < |s| && PodName(s[i]) == x;
      if i > 0 {
        assert PodName(s[1..][i - 1]) == x;
      }
    }
  }

  lemma {:induction false} AllCreated(pods: set<string>, partitions: seq<string>, f: Outage)
    requires NoOutage(f)
    ensures CreateAll(pods, partitions, f) == Outcome(pods + PodNames(partitions), true)
    decreases |partitions|
  {
    hide PodNames;
    if partitions == [] {
      NoNames();
    } else {
      var name := PodName(partitions[0]);
      PodNamesCons(partitions);
      AllCreated(pods + {name}, partitions[1..], f);
      if name in pods {
        assert pods + {name} == pods;
      }
      assert pods + {name} + PodNames(partitions[1..]) == pods + PodNames(partitions);
    }
  }

  lemma NoNames()
    ensures PodNames([]) == {}
  {
  }

  lemma {:induction false} AllDeleted(pods: set<string>, nodes: seq<string>, f: Outage)
    requires NoOutage(f) && Distinct(nodes) && PodNames(nodes) <= pods
    ensures DeleteAll(pods, nodes, f) == Outcome(pods - PodNames(nodes), true)
    decreases |nodes|
  {
    hide PodNames, PodName;
    if nodes == [] {
      NoNames();
    } else {
      var name, rest := PodName(nodes[0]), nodes[1..];
      PodNamesCons(nodes);
      InPodNames(rest, nodes[0]);
      AllDeleted(pods - {name}, rest, f);
      assert pods - {name} - PodNames(rest) == pods - PodNames(nodes);
    }
  }

  lemma {:induction false} MinusDistinct(s1: seq<string>, s2: seq<string>)
    requires Distinct(s1)
    ensures Distinct(Minus(s1, s2))
    decreases |s1|
  {
    if s1 != [] {
      var n := |s1| - 1;
      MinusDistinct(s1[..n], s2);
      MinusHas(s1[..n], s2, s1[n]);
    }
  }

  lemma NamesOfMinus(s1: seq<string>, s2: seq<string>)
    ensures PodNames(Minus(s1, s2)) == PodNames(s1) - PodNames(s2)
  {
    forall x ensures x in PodNames(Minus(s1, s2)) <==> x in PodNames(s1) && x !in PodNames(s2) {
      if x in PodNames(Minus(s1, s2)) || x in PodNames(s1) {
        var p := NameOf(x, if x in PodNames(s1) then s1 else Minus(s1, s2));
        hide PodNames, PodName, Minus;
        InPodNames(s1, p);
        InPodNames(s2, p);
        InPodNames(Minus(s1, s2), p);
        MinusHas(s1, s2, p);
      }
    }
  }

  lemma NameOf(x: string, s: seq<string>) returns (p: string)
    requires x in PodNames(s)
    ensures x == PodName(p)
  {
    var i :| 0 <= i < |s| && PodName(s[i]) == x;
    p := s[i];
  }

  /** All pods of partitions are listed once, and the other pods of the namespace have other names. */
  lemma OnePassIsEnough(
    pods: set<string>, wanted: seq<string>, listed: seq<string>, others: set<string>, f: Outage)
    requires NoOutage(f) && Distinct(listed)
    requires pods == PodNames(listed) + others && others !! PodNames(listed) + PodNames(wanted)
    ensures ReconcileAll(pods, wanted, listed, f) == Outcome(PodNames(wanted) + others, true)
  {
    hide CreateAll, DeleteAll, Minus, PodNames, PodName, Distinct;
    var toCreate, toDelete := Minus(wanted, listed), Minus(listed, wanted);
    NamesOfMinus(wanted, listed);
    NamesOfMinus(listed, wanted);
    MinusDistinct(listed, wanted);
    AllCreated(pods, toCreate, f);
    AllDeleted(pods + PodNames(toCreate), toDelete, f);
    assert pods + PodNames(toCreate) - PodNames(toDelete) == PodNames(wanted) + others;
  }

  /** After that there is nothing to create or delete. */
  lemma NextPassDoesNothing(wanted: seq<string>, listed: seq<string>)
    requires PodNames(listed) == PodNames(wanted)
    ensures Minus(wanted, listed) == [] && Minus(listed, wanted) == []
  {
    NamesOfMinus(wanted, listed);
    NamesOfMinus(listed, wanted);
    NamedIfAny(Minus(wanted, listed));
    NamedIfAny(Minus(listed, wanted));
  }

  lemma NamedIfAny(s: seq<string>)
    ensures s != [] ==> PodNames(s) != {}
  {
    if s != [] {
      PodNamesCons(s);
    }
  }

  lemma DistinctCons(s: seq<string>)
    requires s != []
    ensures Distinct(s) <==> Distinct(s[1..]) && s[0] !in s[1..]
  {
    if Distinct(s[1..]) && s[0] !in s[1..] {
      forall i, j | 0 <= i < j < |s| ensures s[i] != s[j] {
        assert s[j] == s[1..][j - 1];
        assert i > 0 ==> s[i] == s[1..][i - 1];
      }
    }
  }

  lemma {:induction false} DeletionSucceedsIff(pods: set<string>, nodes: seq<string>, f: Outage)
    requires NoOutage(f)
    ensures DeleteAll(pods, nodes, f).ok <==> Distinct(nodes) && PodNames(nodes) <= pods
    decreases |nodes|
  {
    hide PodNames, PodName, Distinct;
    if nodes == [] {
      NoNames();
      NothingTwice();
    } else {
      var name, rest := PodName(nodes[0]), nodes[1..];
      PodNamesCons(nodes);
      DistinctCons(nodes);
      InPodNames(rest, nodes[0]);
      if name in pods {
        DeletionSucceedsIff(pods - {name}, rest, f);
      }
    }
  }

  lemma NothingTwice()
    ensures Distinct([])
  {
  }

  /**
   A stale listing: without failing calls a pass succeeds exactly if every superfluous node is listed once and still
   has its pod. Otherwise it stops at the first that has not.
   */
  lemma PassSucceedsIff(pods: set<string>, wanted: seq<string>, listed: seq<string>, f: Outage)
    requires NoOutage(f)
    ensures ReconcileAll(pods, wanted, listed, f).ok <==>
            Distinct(Minus(listed, wanted)) && PodNames(listed) - PodNames(wanted) <= pods
  {
    hide CreateAll, DeleteAll, Minus, PodNames, PodName, Distinct;
    var toCreate, toDelete := Minus(wanted, listed), Minus(listed, wanted);
    NamesOfMinus(wanted, listed);
    NamesOfMinus(listed, wanted);
    AllCreated(pods, toCreate, f);
    DeletionSucceedsIff(pods + PodNames(toCreate), toDelete, f);
  }

  // What a pass that deletes has done before

  lemma {:induction false} CreatedMeans(pods: set<string>, partitions: seq<string>, f: Outage, p: string)
    requires p in partitions && CreateAll(pods, partitions, f).ok
    ensures PodName(p) in CreateAll(pods, partitions, f).pods
    ensures p !in f.get && (PodName(p) in pods || f.create(p) == Done)
    decreases |partitions|
  {
    hide PodName;
    var q := partitions[0];
    var more := if PodName(q) in pods then pods else pods + {PodName(q)};
    if p in partitions[1..] {
      CreatedMeans(more, partitions[1..], f, p);
      if PodName(p) == PodName(q) {
        PodNamesDiffer(p, q);
      }
    } else {
      assert p == q;
      CreateGrows(more, partitions[1..], f);
    }
  }

  lemma {:induction false} CreateGrows(pods: set<string>, partitions: seq<string>, f: Outage)
    ensures pods <= CreateAll(pods, partitions, f).pods
    decreases |partitions|
  {
    if partitions != [] {
      CreateGrows(if PodName(partitions[0]) in pods then pods else pods + {PodName(partitions[0])}, partitions[1..], f);
    }
  }

  /**
   No pod is deleted unless the nodes were listed and every wanted partition that is not listed has got its pod, without
   a failure.
   */
  lemma DeletionComesLast(pods: set<string>, wanted: seq<string>, listed: seq<string>, f: Outage, p: string)
    requires !(pods <= ReconcileAll(pods, wanted, listed, f).pods)
    requires p in wanted && p !in listed
    ensures !f.list && p !in f.get && (PodName(p) in pods || f.create(p) == Done)
    ensures PodName(p) in ReconcileAll(pods, wanted, listed, f).pods
  {
    hide PodName, PodNames;
    var toCreate, toDelete := Minus(wanted, listed), Minus(listed, wanted);
    CreateGrows(pods, toCreate, f);
    MinusHas(wanted, listed, p);
    if CreateAll(pods, toCreate, f).ok {
      CreatedMeans(pods, toCreate, f, p);
      WantedStays(CreateAll(pods, toCreate, f).pods, wanted, listed, f, p);
    }
  }

  lemma WantedStays(pods: set<string>, wanted: seq<string>, listed: seq<string>, f: Outage, p: string)
    requires p in wanted && PodName(p) in pods
    ensures PodName(p) in DeleteAll(pods, Minus(listed, wanted), f).pods
  {
    hide PodName, PodNames, DeleteAll, Minus;
    OnlyWantedCreated(wanted, listed);
    InPodNames(wanted, p);
    DeleteOnlyHelps(pods, Minus(listed, wanted), f, PodNames(wanted));
  }
}
