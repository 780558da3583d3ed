/**
 * The namespace filter applied to the cluster's pod list before any rule runs
 * (pkg/connection.go:46-72). Listing the pods is cluster I/O and is not part of the model:
 * the list arrives as a parameter.
 */
module Connection {
  import opened Sequences
  import opened Strings
  import opened Pss

  /** The `--exclude` option split at commas; the empty option excludes nothing. */
  function ExcludeList(exclude: string): (list: seq<string>)
    ensures exclude == "" <==> |list| == 0
    ensures exclude != "" ==> Join(list, ",") == exclude
    ensures forall k :: 0 <= k < |list| ==> ',' !in list[k]
  {
    if exclude == "" then [] else Split(exclude, ',')
  }

  /** A namespace is excluded when any entry of the list occurs in it as a substring. */
  predicate Excluded(namespace: string, list: seq<string>) {
    exists k :: 0 <= k < |list| && Contains(namespace, list[k])
  }

  function KeepFn(list: seq<string>): Pod -> seq<Pod> {
    (p: Pod) => if Excluded(p.namespace, list) then [] else [p]
  }

  /** The pods, in their original order, whose namespace no entry of `list` occurs in. */
  function Kept(pods: seq<Pod>, list: seq<string>): seq<Pod> {
    FlatMap(KeepFn(list), pods)
  }

  /** The search over the exclude list, leaving at the first entry that occurs in the namespace. */
  method IsExcluded(namespace: string, list: seq<string>) returns (excluded: bool)
    ensures excluded <==> Excluded(namespace, list)
  {
    excluded := false;
    var k := 0;
    while k < |list|
      invariant 0 <= k <= |list|
      invariant forall m :: 0 <= m < k ==> !Contains(namespace, list[m])
    {
      if Contains(namespace, list[k]) {
        excluded := true;
        break;
      }
      k := k + 1;
    }
  }

  /** The filtering loop: each pod is kept unless the exclude list rules its namespace out. */
  method FilterPods(pods: seq<Pod>, exclude: string) returns (filtered: seq<Pod>)
    ensures filtered == Kept(pods, ExcludeList(exclude))
  {
    var excludeList := if exclude != "" then Split(exclude, ',') else [];
    filtered := [];
    for i := 0 to |pods|
      invariant filtered == Kept(pods[..i], excludeList)
    {
      var pod := pods[i];
      FlatMapStep(KeepFn(excludeList), pods, i);
      if |excludeList| > 0 {
        var excluded := IsExcluded(pod.namespace, excludeList);
        if excluded {
          continue;
        }
      }
      filtered := filtered + [pod];
    }
    assert pods[..|pods|] == pods;
  }

  /** A pod survives the filter exactly when it was listed and its namespace is not excluded. */
  lemma KeptMember(pods: seq<Pod>, list: seq<string>, p: Pod)
    ensures p in Kept(pods, list) <==> p in pods && !Excluded(p.namespace, list)
  {
    FlatMapMember(KeepFn(list), pods, p);
  }

  /** The filter only deletes pods: what is left keeps the cluster's order. */
  lemma KeptSubsequence(pods: seq<Pod>, list: seq<string>)
    ensures IsSubsequence(Kept(pods, list), pods)
  {
    FilterSubsequence(KeepFn(list), pods);
  }

  /** Without an exclude option every pod is kept. */
  lemma {:induction false} EmptyExcludeKeepsAll(pods: seq<Pod>)
    ensures Kept(pods, ExcludeList("")) == pods
  {
    if |pods| > 0 {
      EmptyExcludeKeepsAll(pods[..|pods| - 1]);
      assert pods[..|pods| - 1] + [pods[|pods| - 1]] == pods;
    }
  }

  /**
   * An empty entry (from `a,,b` or a trailing comma) occurs in every namespace, so it
   * excludes every pod.
   */
  lemma {:induction false} EmptyEntryExcludesAll(pods: seq<Pod>, list: seq<string>)
    requires "" in list
    ensures Kept(pods, list) == []
  {
    if |pods| > 0 {
      EmptyEntryExcludesAll(pods[..|pods| - 1], list);
      var k :| 0 <= k < |list| && list[k] == "";
      assert OccursAt(pods[|pods| - 1].namespace, list[k], 0);
    }
  }

  /** A doubled comma in the option yields an empty entry, which then excludes every pod. */
  lemma DoubledCommaExcludesAll(pods: seq<Pod>)
    ensures "" in ExcludeList("a,,b")
    ensures Kept(pods, ExcludeList("a,,b")) == []
  {
    var s := "a,,b";
    assert s[1..] == ",,b" && s[1..][1..] == ",b" && s[1..][1..][1..] == "b" && s[1..][1..][1..][1..] == "";
    assert Split("b", ',') == ["b"];
    assert Split(",b", ',') == ["", "b"];
    assert Split(",,b", ',') == ["", "", "b"];
    assert ExcludeList(s)[1] == "";
    EmptyEntryExcludesAll(pods, ExcludeList(s));
  }

  /** `kube` excludes `kube-system`: entries match as substrings, not as whole names. */
  lemma KubeExcludesKubeSystem()
    ensures Excluded("kube-system", ExcludeList("kube"))
  {
    assert Split("kube", ',') == ["kube"];
    assert OccursAt("kube-system", "kube", 0);
  }
}
