/** The destination-candidate listing: the VPC listing already shown, with the source VPC
    removed. It is a new index space, distinct from the listing it was derived from. */
module Destinations {
  import opened Inventory

  /** The entries of `vpcs` whose id differs from `vpcId`, in their original order. */
  function ExcludeVpc(vpcs: seq<Vpc>, vpcId: string): (r: seq<Vpc>)
    ensures forall k :: 0 <= k < |r| ==> r[k].vpcId != vpcId
    ensures forall v :: v in r <==> v in vpcs && v.vpcId != vpcId
    ensures |r| <= |vpcs|
  {
    if vpcs == [] then []
    else
      assert forall v :: v in vpcs <==> v == vpcs[0] || v in vpcs[1..];
      if vpcs[0].vpcId == vpcId then ExcludeVpc(vpcs[1..], vpcId)
      else [vpcs[0]] + ExcludeVpc(vpcs[1..], vpcId)
  }

  /** The ids of a VPC listing, position by position. */
  function VpcIds(vpcs: seq<Vpc>): seq<string>
  {
    if vpcs == [] then [] else [vpcs[0].vpcId] + VpcIds(vpcs[1..])
  }

  /** The positions of `vpcs`, in increasing order, whose id differs from `vpcId`. */
  function KeptPositions(vpcs: seq<Vpc>, vpcId: string): seq<nat>
    decreases |vpcs|
  {
    if vpcs == [] then []
    else
      var n := |vpcs| - 1;
      KeptPositions(vpcs[..n], vpcId) + (if vpcs[n].vpcId != vpcId then [n] else [])
  }

  /** Exclusion distributes over concatenation. */
  lemma {:induction false} ExcludeAppend(a: seq<Vpc>, b: seq<Vpc>, vpcId: string)
    ensures ExcludeVpc(a + b, vpcId) == ExcludeVpc(a, vpcId) + ExcludeVpc(b, vpcId)
  {
    if a != [] {
      assert (a + b)[1..] == a[1..] + b;
      ExcludeAppend(a[1..], b, vpcId);
    } else {
      assert a + b == b;
    }
  }

  /** The candidate listing is one entry shorter than the original for every entry that
      carries the source id, and keeps the length of the original otherwise. */
  lemma {:induction false} ExcludeLength(vpcs: seq<Vpc>, vpcId: string)
    ensures |ExcludeVpc(vpcs, vpcId)| == |vpcs| - multiset(VpcIds(vpcs))[vpcId]
  {
    if vpcs != [] {
      ExcludeLength(vpcs[1..], vpcId);
      assert multiset(VpcIds(vpcs)) == multiset{vpcs[0].vpcId} + multiset(VpcIds(vpcs[1..]));
    }
  }

  /** The kept positions are valid and strictly increasing. */
  lemma {:induction false} KeptPositionsIncreasing(vpcs: seq<Vpc>, vpcId: string)
    ensures forall k :: 0 <= k < |KeptPositions(vpcs, vpcId)| ==> KeptPositions(vpcs, vpcId)[k] < |vpcs|
    ensures forall a, b :: 0 <= a < b < |KeptPositions(vpcs, vpcId)| ==>
              KeptPositions(vpcs, vpcId)[a] < KeptPositions(vpcs, vpcId)[b]
    decreases |vpcs|
  {
    if vpcs != [] {
      var n := |vpcs| - 1;
      KeptPositionsIncreasing(vpcs[..n], vpcId);
    }
  }

  /** Every position whose id differs from `vpcId` is kept. */
  lemma {:induction false} KeptPositionsComplete(vpcs: seq<Vpc>, vpcId: string, j: nat)
    requires j < |vpcs| && vpcs[j].vpcId != vpcId
    ensures j in KeptPositions(vpcs, vpcId)
    decreases |vpcs|
  {
    var n := |vpcs| - 1;
    if j < n {
      KeptPositionsComplete(vpcs[..n], vpcId, j);
    }
  }

  /** The candidate listing reads the original listing at the kept positions. */
  lemma {:induction false} ExcludeAtKeptPositions(vpcs: seq<Vpc>, vpcId: string)
    ensures |KeptPositions(vpcs, vpcId)| == |ExcludeVpc(vpcs, vpcId)|
    ensures forall k :: 0 <= k < |KeptPositions(vpcs, vpcId)| ==>
              KeptPositions(vpcs, vpcId)[k] < |vpcs| &&
              ExcludeVpc(vpcs, vpcId)[k] == vpcs[KeptPositions(vpcs, vpcId)[k]]
    decreases |vpcs|
  {
    if vpcs != [] {
      var n := |vpcs| - 1;
      var front := vpcs[..n];
      ExcludeAtKeptPositions(front, vpcId);
      assert vpcs == front + [vpcs[n]];
      ExcludeAppend(front, [vpcs[n]], vpcId);
      if vpcs[n].vpcId != vpcId {
        assert ExcludeVpc([vpcs[n]], vpcId) == [vpcs[n]];
      } else {
        assert ExcludeVpc([vpcs[n]], vpcId) == [];
      }
    }
  }

  /** The candidate listing is the original listing read at an increasing sequence of
      positions that includes every position whose id differs from the source id: the
      remaining VPCs are all kept and keep their relative order. */
  lemma ExcludeKeepsOrder(vpcs: seq<Vpc>, vpcId: string)
    ensures var p := KeptPositions(vpcs, vpcId);
      && |p| == |ExcludeVpc(vpcs, vpcId)|
      && (forall k :: 0 <= k < |p| ==> p[k] < |vpcs| && ExcludeVpc(vpcs, vpcId)[k] == vpcs[p[k]])
      && (forall a, b :: 0 <= a < b < |p| ==> p[a] < p[b])
      && (forall j :: 0 <= j < |vpcs| && vpcs[j].vpcId != vpcId ==> j in p)
  {
    ExcludeAtKeptPositions(vpcs, vpcId);
    KeptPositionsIncreasing(vpcs, vpcId);
    forall j | 0 <= j < |vpcs| && vpcs[j].vpcId != vpcId
      ensures j in KeptPositions(vpcs, vpcId)
    {
      KeptPositionsComplete(vpcs, vpcId, j);
    }
  }

  /** Choosing the first of two VPCs as the source leaves only the second as a candidate. */
  lemma TwoVpcsFirstChosen()
    ensures ExcludeVpc([Vpc("vpc-1", "10.0.0.0/16", "available"), Vpc("vpc-2", "10.1.0.0/16", "available")], "vpc-1")
            == [Vpc("vpc-2", "10.1.0.0/16", "available")]
  {
  }
}
