/** Pods, podscales and the per-node list of podscales, with its in-place
    deletion on a backing array that several slice headers may share. */
module Types {
  import opened Common

  datatype Key = Key(namespace: string, name: string)

  datatype QosClass = Guaranteed | Burstable | BestEffort

  datatype Container = Container(name: string, requests: Resources, limits: Resources)

  datatype Pod = Pod(key: Key, labels: map<string, string>, node: string, qos: QosClass,
                     containers: seq<Container>)

  /** The index of the first container of that name, or the length. */
  function FirstNamed(containers: seq<Container>, name: string): (i: nat)
    ensures i <= |containers|
    ensures i < |containers| ==> containers[i].name == name
    ensures forall j :: 0 <= j < i ==> containers[j].name != name
  {
    if |containers| == 0 || containers[0].name == name then 0
    else 1 + FirstNamed(containers[1..], name)
  }

  predicate HasContainer(containers: seq<Container>, name: string)
  {
    FirstNamed(containers, name) < |containers|
  }

  /** A service level agreement; absent bounds are the source's nil lists. */
  datatype Sla = Sla(name: string, container: string, responseTime: int,
                     minResources: Option<Resources>, maxResources: Option<Resources>,
                     defaultResources: Resources, minReplicas: int, maxReplicas: int)

  datatype PodScaleSpec = PodScaleSpec(key: Key, sla: string, service: string, container: string)

  /** A podscale as the API server stores it. */
  datatype ScaleValue = ScaleValue(spec: PodScaleSpec, desired: Resources, capped: Resources, actual: Resources)

  class PodScale {
    const spec: PodScaleSpec
    var desired: Resources
    var capped: Resources
    var actual: Resources

    constructor (spec: PodScaleSpec, desired: Resources, capped: Resources, actual: Resources)
      ensures this.spec == spec
      ensures this.desired == desired && this.capped == capped && this.actual == actual
    {
      this.spec := spec;
      this.desired, this.capped, this.actual := desired, capped, actual;
    }

    method DeepCopy() returns (copy: PodScale)
      ensures fresh(copy) && copy.spec == spec
      ensures copy.desired == desired && copy.capped == capped && copy.actual == actual
    {
      copy := new PodScale(spec, desired, capped, actual);
    }
  }

  ghost predicate Listed(scales: seq<PodScale>, key: Key)
  {
    exists i :: 0 <= i < |scales| && scales[i].spec.key == key
  }

  /** The first podscale of a pod taken out of the list, the rest in order. */
  ghost function WithoutFirst(scales: seq<PodScale>, key: Key): seq<PodScale>
  {
    if |scales| == 0 then []
    else if scales[0].spec.key == key then scales[1..]
    else [scales[0]] + WithoutFirst(scales[1..], key)
  }

  lemma {:induction false} WithoutFirstAt(scales: seq<PodScale>, key: Key, i: nat)
    requires i < |scales| && scales[i].spec.key == key
    requires forall j :: 0 <= j < i ==> scales[j].spec.key != key
    ensures WithoutFirst(scales, key) == scales[..i] + scales[i + 1..]
  {
    if i == 0 {
    } else {
      WithoutFirstAt(scales[1..], key, i - 1);
      assert scales[..i] == [scales[0]] + scales[1..][..i - 1];
    }
  }

  class NodeScales {
    const node: string
    var data: array<PodScale>
    var len: nat

    ghost predicate Valid()
      reads this
    {
      len <= data.Length
    }

    ghost function PodScales(): seq<PodScale>
      requires Valid()
      reads this, data
    {
      data[..len]
    }

    constructor (node: string, data: array<PodScale>, len: nat)
      requires len <= data.Length
      ensures Valid() && this.node == node && this.data == data && this.len == len
    {
      this.node, this.data, this.len := node, data, len;
    }

    method Contains(key: Key) returns (found: bool)
      requires Valid()
      ensures found == Listed(PodScales(), key)
    {
      for i := 0 to len
        invariant forall j :: 0 <= j < i ==> data[j].spec.key != key
      {
        if data[i].spec.key == key {
          assert PodScales()[i].spec.key == key;
          return true;
        }
      }
      return false;
    }

    /** Moves the cells after `i` one to the left; the last one stays behind. */
    method ShiftLeft(i: nat)
      requires Valid() && i < len
      modifies data
      ensures data[..len - 1] == old(data[..i]) + old(data[i + 1..len])
      ensures data[len - 1..] == old(data[len - 1..])
    {
      ghost var before := data[..];
      for k := i to len - 1
        invariant forall j :: 0 <= j < i ==> data[j] == before[j]
        invariant forall j :: i <= j < k ==> data[j] == before[j + 1]
        invariant forall j :: k <= j < data.Length ==> data[j] == before[j]
      {
        data[k] := data[k + 1];
      }
    }

    /** Deletes the first match by shifting the tail left inside the backing
        array. Every cell from the new length on keeps its value, so another
        header over the same array sees the shift and the old last element. */
    method Remove(key: Key) returns (removed: Option<PodScale>)
      requires Valid()
      modifies this`len, data
      ensures Valid()
      ensures removed.Some? == Listed(old(PodScales()), key)
      ensures removed.Some? ==>
                && removed.value in old(PodScales()) && removed.value.spec.key == key
                && len == old(len) - 1
                && PodScales() == WithoutFirst(old(PodScales()), key)
                && data[len..] == old(data[len - 1..])
      ensures removed.None? ==> len == old(len) && data[..] == old(data[..])
    {
      ghost var before := data[..];
      for i := 0 to len
        invariant len == old(len) && data[..] == before
        invariant forall j :: 0 <= j < i ==> data[j].spec.key != key
      {
        if data[i].spec.key == key {
          removed := Some(data[i]);
          assert removed.value == old(PodScales())[i];
          WithoutFirstAt(PodScales(), key, i);
          ShiftLeft(i);
          len := len - 1;
          assert PodScales() == before[..i] + before[i + 1..old(len)];
          assert data[len..] == before[old(len) - 1..];
          return;
        }
      }
      removed := None;
    }
  }
}
