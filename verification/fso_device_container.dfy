/** An ordered collection of optical devices, identified by handles. */
module FsoDeviceContainer {
  import FsoChannel

  /** The devices in insertion order. */
  datatype Container = Container(devices: seq<FsoChannel.DeviceId>)

  /** An empty container (model/fso-device-container.cc:25-27). */
  const Empty := Container([])

  /** The number of devices (model/fso-device-container.cc:45-49). */
  function GetN(c: Container): nat
  {
    |c.devices|
  }

  /** The device at a position, which must exist (model/fso-device-container.cc:51-55). */
  function Get(c: Container, i: nat): FsoChannel.DeviceId
    requires i < GetN(c)
  {
    c.devices[i]
  }

  /** Appends one device (model/fso-device-container.cc:65-69). */
  function Add(c: Container, d: FsoChannel.DeviceId): (r: Container)
    ensures GetN(r) == GetN(c) + 1 && Get(r, GetN(c)) == d
    ensures forall i :: 0 <= i < GetN(c) ==> Get(r, i) == Get(c, i)
  {
    Container(c.devices + [d])
  }

  /**
   * Appends the devices of another container one by one, in their order
   * (model/fso-device-container.cc:57-64).
   */
  method AddAll(c: Container, other: Container) returns (r: Container)
    ensures GetN(r) == GetN(c) + GetN(other)
    ensures forall i :: 0 <= i < GetN(c) ==> Get(r, i) == Get(c, i)
    ensures forall k :: 0 <= k < GetN(other) ==> Get(r, GetN(c) + k) == Get(other, k)
  {
    r := c;
    var k := 0;
    while k < GetN(other)
      invariant 0 <= k <= GetN(other)
      invariant r.devices == c.devices + other.devices[..k]
    {
      r := Add(r, Get(other, k));
      assert other.devices[..k + 1] == other.devices[..k] + [other.devices[k]];
      k := k + 1;
    }
    assert other.devices[..k] == other.devices;
  }

  /** The count is the number of devices added: a container built by adding a list of devices holds exactly them. */
  lemma {:induction false} AddedInOrder(ds: seq<FsoChannel.DeviceId>)
    ensures GetN(Build(ds)) == |ds|
    ensures forall i :: 0 <= i < |ds| ==> Get(Build(ds), i) == ds[i]
    decreases |ds|
  {
    if |ds| > 0 {
      AddedInOrder(ds[..|ds| - 1]);
    }
  }

  /** The container obtained by adding devices one at a time to an empty one. */
  function Build(ds: seq<FsoChannel.DeviceId>): Container
  {
    if |ds| == 0 then Empty else Add(Build(ds[..|ds| - 1]), ds[|ds| - 1])
  }
}
