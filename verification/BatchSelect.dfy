/** Turning SDK instances into framework endpoints (common.h:77-127), as
    SelectBatch does it (polarismesh_selector.cc:223-318). */
module BatchSelect {
  import opened Prelude

  datatype Instance = Instance(
    id: string, host: string, port: int, ipv6: bool, healthy: bool, weight: nat, localId: nat,
    isolated: bool, metadata: map<string, string>)

  datatype Endpoint = Endpoint(
    host: string, port: int, isIpv6: bool, status: bool, weight: nat, id: nat, meta: map<string, string>)

  /** ConvertPolarisInstance into an endpoint; without `needMeta` its metadata is
      not touched. */
  function Converted(i: Instance, before: map<string, string>, needMeta: bool): Endpoint {
    Endpoint(i.host, i.port, i.ipv6, i.healthy, i.weight, i.localId,
             if needMeta then i.metadata["instance_id" := i.id] else before)
  }

  /** ConvertPolarisInstance: fills the caller's endpoint field by field. */
  method ConvertInstance(i: Instance, before: Endpoint, needMeta: bool) returns (e: Endpoint)
    ensures e == Converted(i, before.meta, needMeta)
    ensures e.host == i.host && e.port == i.port && e.isIpv6 == i.ipv6 && e.status == i.healthy
    ensures e.weight == i.weight && e.id == i.localId
    ensures !needMeta ==> e.meta == before.meta
    ensures needMeta ==> e.meta.Keys == i.metadata.Keys + {"instance_id"} && e.meta["instance_id"] == i.id
    ensures needMeta ==> forall k :: k in i.metadata && k != "instance_id" ==> e.meta[k] == i.metadata[k]
  {
    e := before.(host := i.host);
    e := e.(port := i.port);
    e := e.(isIpv6 := i.ipv6);
    e := e.(status := i.healthy);
    e := e.(weight := i.weight);
    e := e.(id := i.localId);
    if needMeta {
      e := e.(meta := i.metadata);
      e := e.(meta := e.meta["instance_id" := i.id]);
    }
  }

  /** What the framework's default constructor leaves; its own defaults are not
      part of this model, and every field is overwritten. */
  const BLANK_ENDPOINT := Endpoint("", 0, false, false, 0, 0, map[])

  function AllConverted(s: seq<Instance>): (r: seq<Endpoint>)
    ensures |r| == |s|
  {
    seq(|s|, i requires 0 <= i < |s| => Converted(s[i], map[], true))
  }

  predicate Usable(i: Instance) {
    !i.isolated && i.weight != 0
  }

  function KeepUsable(s: seq<Instance>): seq<Instance> {
    if s == [] then []
    else (if Usable(s[0]) then [s[0]] else []) + KeepUsable(s[1..])
  }

  ghost predicate Increasing(at: seq<nat>) {
    forall i, j :: 0 <= i < j < |at| ==> at[i] < at[j]
  }

  /** `at` are the places in `s` of the elements of `r`, in order; no usable
      instance is elsewhere. */
  ghost predicate PickedAt(s: seq<Instance>, r: seq<Instance>, at: seq<nat>) {
    && |at| == |r| && Increasing(at)
    && (forall j :: 0 <= j < |at| ==> at[j] < |s| && r[j] == s[at[j]])
    && (forall i :: 0 <= i < |s| ==> (i in at <==> !s[i].isolated && s[i].weight != 0))
  }

  lemma {:induction false} KeepOneMore(s: seq<Instance>, k: nat)
    requires k < |s|
    ensures KeepUsable(s[..k + 1]) == KeepUsable(s[..k]) + if Usable(s[k]) then [s[k]] else []
  {
    if k == 0 {
      assert s[..1] == [s[0]] && s[..0] == [] && s[..1][1..] == [];
    } else {
      assert s[..k + 1][1..] == s[1..][..k] && s[..k][1..] == s[1..][..k - 1];
      KeepOneMore(s[1..], k - 1);
    }
  }

  function Places(s: seq<Instance>): seq<nat> {
    if s == [] then []
    else Places(s[..|s| - 1]) + if Usable(s[|s| - 1]) then [|s| - 1] else []
  }

  /** What is kept are exactly the usable instances, each once, in their order. */
  lemma {:induction false} UsableInOrder(s: seq<Instance>)
    ensures PickedAt(s, KeepUsable(s), Places(s))
  {
    if s != [] {
      var n := |s| - 1;
      UsableInOrder(s[..n]);
      KeepOneMore(s, n);
      assert s[..n + 1] == s;
      assert forall i :: 0 <= i < n ==> s[..n][i] == s[i];
    }
  }

  /** What the endpoints of a batch carry: the instance's own values, and its id among
      its metadata. */
  lemma BatchEndpoints(s: seq<Instance>, j: nat)
    requires j < |s|
    ensures
      var e := AllConverted(s)[j];
      && e.host == s[j].host && e.port == s[j].port && e.isIpv6 == s[j].ipv6 && e.status == s[j].healthy
      && e.weight == s[j].weight && e.id == s[j].localId
      && e.meta.Keys == s[j].metadata.Keys + {"instance_id"} && e.meta["instance_id"] == s[j].id
      && forall k :: k in s[j].metadata && k != "instance_id" ==> e.meta[k] == s[j].metadata[k]
  {
  }

  method ConvertPolarisInstances(instances: seq<Instance>, before: seq<Endpoint>) returns (endpoints: seq<Endpoint>)
    ensures endpoints == before + AllConverted(instances)
  {
    endpoints := before;
    for k := 0 to |instances|
      invariant endpoints == before + AllConverted(instances)[..k]
    {
      var result := ConvertInstance(instances[k], BLANK_ENDPOINT, true);
      endpoints := endpoints + [result];
    }
  }

  method ConvertInstancesNoIsolated(instances: seq<Instance>, before: seq<Endpoint>) returns (endpoints: seq<Endpoint>)
    ensures endpoints == before + AllConverted(KeepUsable(instances))
  {
    endpoints := before;
    for k := 0 to |instances|
      invariant endpoints == before + AllConverted(KeepUsable(instances[..k]))
    {
      KeepOneMore(instances, k);
      if instances[k].isolated || instances[k].weight == 0 {
        continue;
      }
      var result := ConvertInstance(instances[k], BLANK_ENDPOINT, true);
      endpoints := endpoints + [result];
    }
    assert instances[..|instances|] == instances;
  }

  datatype Policy = All | Multiple | OtherPolicy

  /** What the selector appends for an answer of the SDK. Only policy ALL filters;
      when the call fails the caller's vector is left as it was. */
  method SelectBatch(init: bool, policy: Policy, answer: Option<seq<Instance>>, before: seq<Endpoint>)
    returns (rc: int, endpoints: seq<Endpoint>)
    ensures rc == if init && answer.Some? then 0 else -1
    ensures rc == -1 ==> endpoints == before
    ensures rc == 0 ==>
      endpoints == before + AllConverted(if policy == All then KeepUsable(answer.value) else answer.value)
  {
    if !init || answer.None? {
      return -1, before;
    }
    if policy == Multiple {
      endpoints := ConvertPolarisInstances(answer.value, before);
      return 0, endpoints;
    }
    if policy == All {
      endpoints := ConvertInstancesNoIsolated(answer.value, before);
    } else {
      endpoints := ConvertPolarisInstances(answer.value, before);
    }
    rc := 0;
  }
}
