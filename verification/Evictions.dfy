/** Which pods an agent deletes before it reboots its node. */
module Evictions {
  import opened Lists

  datatype Owner = Owner(kind: string, name: string)

  datatype Pod = Pod(name: string, namespace: string, mirror: bool, owners: seq<Owner>)

  /** What asking the API server for a DaemonSet gives. */
  datatype Lookup = Found | NotFound | LookupError

  /** The answer to asking for owner j of a pod; any answer for any pod and owner. */
  type Oracle = (Pod, nat) -> Lookup

  /** Owner j is a DaemonSet that exists, and no lookup failed on the way to it. */
  predicate OwnedVia(look: Oracle, pod: Pod, j: nat) {
    && j < |pod.owners| && pod.owners[j].kind == "DaemonSet" && look(pod, j) == Found
    && forall i :: 0 <= i < j && pod.owners[i].kind == "DaemonSet" ==> look(pod, i) == NotFound
  }

  ghost predicate KeptByDaemonSet(look: Oracle, pod: Pod) {
    exists j :: OwnedVia(look, pod, j)
  }

  /** getOwnerDaemonset */
  method GetOwnerDaemonset(look: Oracle, pod: Pod) returns (found: bool, owner: nat)
    ensures found <==> KeptByDaemonSet(look, pod)
    ensures found ==> OwnedVia(look, pod, owner)
    ensures found ==> owner < |pod.owners| && pod.owners[owner].kind == "DaemonSet" && look(pod, owner) == Found
  {
    owner := 0;
    if |pod.owners| == 0 {
      return false, 0;
    }
    for j := 0 to |pod.owners|
      invariant forall i :: 0 <= i < j && pod.owners[i].kind == "DaemonSet" ==> look(pod, i) == NotFound
    {
      if pod.owners[j].kind == "DaemonSet" {
        var answer := look(pod, j);
        if answer == Found {
          assert OwnedVia(look, pod, j);
          return true, j;
        }
        if answer != NotFound {
          forall k: nat ensures !OwnedVia(look, pod, k) {
          }
          return false, 0;
        }
      }
    }
    found := false;
  }

  ghost predicate Deletable(look: Oracle, pod: Pod) {
    !pod.mirror && !KeptByDaemonSet(look, pod)
  }

  ghost predicate Evicted(look: Oracle, pod: Pod) {
    Deletable(look, pod) && pod.namespace != "kube-system"
  }

  /** A pod is evicted unless it lies in kube-system, is a mirror pod, or has an
      existing DaemonSet owner before whose lookup every other DaemonSet was not
      found: a lookup that fails otherwise, or no such owner, does not save it. */
  lemma EvictedExactly(look: Oracle, pod: Pod)
    ensures Evicted(look, pod) <==>
      && pod.namespace != "kube-system" && !pod.mirror
      && forall j :: 0 <= j < |pod.owners| && pod.owners[j].kind == "DaemonSet" && look(pod, j) == Found ==>
           exists i :: 0 <= i < j && pod.owners[i].kind == "DaemonSet" && look(pod, i) != NotFound
    ensures Deletable(look, pod) && pod.namespace == "kube-system" ==> !Evicted(look, pod)
    ensures Evicted(look, pod) ==> Deletable(look, pod)
  {
    forall j: nat ensures OwnedVia(look, pod, j) <==>
      && j < |pod.owners| && pod.owners[j].kind == "DaemonSet" && look(pod, j) == Found
      && !(exists i :: 0 <= i < j && pod.owners[i].kind == "DaemonSet" && look(pod, i) != NotFound)
    {
    }
  }

  /** drain.GetPodsForDeletion, from the pods listed on the node. */
  method GetPodsForDeletion(look: Oracle, listed: seq<Pod>) returns (pods: seq<Pod>)
    ensures pods == Filter(listed, pod => Deletable(look, pod))
  {
    pods := [];
    ghost var sel := pod => Deletable(look, pod);
    for j := 0 to |listed|
      invariant pods == Filter(listed[..j], sel)
    {
      FilterSnoc(listed, j, sel);
      if listed[j].mirror {
        continue;
      }
      var found, _ := GetOwnerDaemonset(look, listed[j]);
      if found {
        continue;
      }
      pods := pods + [listed[j]];
    }
    assert listed[..|listed|] == listed;
  }

  /** FilterPods */
  method FilterPods(pods: seq<Pod>, filter: Pod -> bool) returns (newpods: seq<Pod>)
    ensures newpods == Filter(pods, filter)
  {
    newpods := [];
    for j := 0 to |pods|
      invariant newpods == Filter(pods[..j], filter)
    {
      FilterSnoc(pods, j, filter);
      if filter(pods[j]) {
        newpods := newpods + [pods[j]];
      }
    }
    assert pods[..|pods|] == pods;
  }

  /** The agent's getPodsForDeletion: exactly the pods outside kube-system that
      are no mirror pods and have no existing DaemonSet owner, in list order; and
      nothing if the pods could not be listed. */
  method PodsToEvict(look: Oracle, listFails: bool, listed: seq<Pod>) returns (err: bool, pods: seq<Pod>)
    ensures err <==> listFails
    ensures !err ==> pods == Filter(listed, pod => Evicted(look, pod))
    ensures !err ==> forall pod :: pod in pods <==> pod in listed && Evicted(look, pod)
  {
    if listFails {
      return true, [];
    }
    var candidates := GetPodsForDeletion(look, listed);
    var outside: Pod -> bool := (pod: Pod) => pod.namespace != "kube-system";
    pods := FilterPods(candidates, outside);
    FilterTwice(listed, pod => Deletable(look, pod), outside);
    FilterSame(listed, Both(pod => Deletable(look, pod), outside), pod => Evicted(look, pod));
    FilterMembers(listed, pod => Evicted(look, pod));
    err := false;
  }
}
