/** The restart count `restartsHandler` reports: the sum of the restart counts of every
    container status of every listed pod, accumulated in an `int32`. */
module Restarts {

  /** Go's `int32`. */
  newtype int32 = x: int | -0x8000_0000 <= x < 0x8000_0000

  const Modulus: int := 0x1_0000_0000

  /** The `int32` that two's-complement arithmetic leaves of the mathematical value `x`. */
  function Wrap32(x: int): (r: int32)
    ensures (x - r as int) % Modulus == 0
    ensures -0x8000_0000 <= x < 0x8000_0000 ==> r as int == x
  {
    ((x + 0x8000_0000) % Modulus - 0x8000_0000) as int32
  }

  /** The part of a `corev1.ContainerStatus` that is summed. */
  datatype ContainerStatus = ContainerStatus(name: string, restartCount: int32)

  /** The part of a `corev1.Pod` that is read: its container statuses. */
  datatype Pod = Pod(containerStatuses: seq<ContainerStatus>)

  /** The exact sum of the restart counts of `statuses`. */
  function StatusRestarts(statuses: seq<ContainerStatus>): int
  {
    if statuses == [] then 0
    else StatusRestarts(statuses[..|statuses| - 1]) + statuses[|statuses| - 1].restartCount as int
  }

  /** The exact sum of the restart counts over all container statuses of all `pods`. */
  function TotalRestarts(pods: seq<Pod>): int
  {
    if pods == [] then 0
    else TotalRestarts(pods[..|pods| - 1]) + StatusRestarts(pods[|pods| - 1].containerStatuses)
  }

  /** Wrapping an intermediate value does not change the wrapped result of a later addition. */
  lemma WrapAdd(a: int, b: int)
    ensures Wrap32(Wrap32(a) as int + b) == Wrap32(a + b)
  {
    var k := (a + 0x8000_0000) / Modulus;
    assert Wrap32(a) as int == a - k * Modulus;
    assert (Wrap32(a) as int + b + 0x8000_0000) % Modulus == (a + b + 0x8000_0000) % Modulus;
  }

  /** The nested loop of `restartsHandler`: `count` is the exact total, wrapped to `int32`. */
  method CountRestarts(pods: seq<Pod>) returns (count: int32)
    ensures count == Wrap32(TotalRestarts(pods))
  {
    count := 0;
    for i := 0 to |pods|
      invariant count == Wrap32(TotalRestarts(pods[..i]))
    {
      var statuses := pods[i].containerStatuses;
      for j := 0 to |statuses|
        invariant count == Wrap32(TotalRestarts(pods[..i]) + StatusRestarts(statuses[..j]))
      {
        assert statuses[..j + 1][..j] == statuses[..j];
        WrapAdd(TotalRestarts(pods[..i]) + StatusRestarts(statuses[..j]), statuses[j].restartCount as int);
        count := Wrap32(count as int + statuses[j].restartCount as int);
      }
      assert statuses[..|statuses|] == statuses;
      assert pods[..i + 1][..i] == pods[..i];
    }
    assert pods[..|pods|] == pods;
  }

  /** The total over two lists of statuses is the sum of their totals. */
  lemma {:induction false} StatusRestartsAppend(a: seq<ContainerStatus>, b: seq<ContainerStatus>)
    ensures StatusRestarts(a + b) == StatusRestarts(a) + StatusRestarts(b)
    decreases |b|
  {
    if b != [] {
      assert (a + b)[..|a + b| - 1] == a + b[..|b| - 1];
      StatusRestartsAppend(a, b[..|b| - 1]);
    } else {
      assert a + b == a;
    }
  }

  /** The total over two lists of pods is the sum of their totals: the order in which pods
      are listed and split does not matter. */
  lemma {:induction false} TotalRestartsAppend(a: seq<Pod>, b: seq<Pod>)
    ensures TotalRestarts(a + b) == TotalRestarts(a) + TotalRestarts(b)
    decreases |b|
  {
    if b != [] {
      assert (a + b)[..|a + b| - 1] == a + b[..|b| - 1];
      TotalRestartsAppend(a, b[..|b| - 1]);
    } else {
      assert a + b == a;
    }
  }

  /** With no container statuses anywhere (in particular with no pods) the total is 0. */
  lemma {:induction false} NoStatusesNoRestarts(pods: seq<Pod>)
    requires forall i :: 0 <= i < |pods| ==> pods[i].containerStatuses == []
    ensures TotalRestarts(pods) == 0
  {
    if pods != [] {
      NoStatusesNoRestarts(pods[..|pods| - 1]);
    }
  }

  /** Restart counts are never negative in a pod status, and then neither is the total. */
  lemma {:induction false} TotalRestartsNonNegative(pods: seq<Pod>)
    requires forall i, j :: 0 <= i < |pods| && 0 <= j < |pods[i].containerStatuses| ==>
      pods[i].containerStatuses[j].restartCount >= 0
    ensures TotalRestarts(pods) >= 0
  {
    if pods != [] {
      TotalRestartsNonNegative(pods[..|pods| - 1]);
      StatusRestartsNonNegative(pods[|pods| - 1].containerStatuses);
    }
  }

  /** Likewise for the statuses of one pod. */
  lemma {:induction false} StatusRestartsNonNegative(statuses: seq<ContainerStatus>)
    requires forall j :: 0 <= j < |statuses| ==> statuses[j].restartCount >= 0
    ensures StatusRestarts(statuses) >= 0
  {
    if statuses != [] {
      StatusRestartsNonNegative(statuses[..|statuses| - 1]);
    }
  }
}
