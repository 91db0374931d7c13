/** Index-based selection: an ordinal typed by the operator is resolved against the listing
    that was displayed just before the prompt. */
module Selection {
  import opened Results
  import opened Inventory

  /** Why a reply selects nothing: an ordinal outside the listing shown (with the listing's
      length as the valid bound), or an empty reply where a list of ordinals was asked for. */
  datatype SelectionError = OutOfRange(index: int, bound: nat) | NoIndices

  /** The entry at position `index` of `listing`, or `OutOfRange` when there is none. */
  function Resolve<T>(listing: seq<T>, index: int): (r: Result<T, SelectionError>)
    ensures r.Ok? <==> 0 <= index < |listing|
    ensures r.Ok? ==> r.value == listing[index]
    ensures r.Err? ==> r.error == OutOfRange(index, |listing|)
  {
    if 0 <= index < |listing| then Ok(listing[index]) else Err(OutOfRange(index, |listing|))
  }

  /** Every index of `indices` lies inside `listing`. */
  predicate AllInRange<T>(listing: seq<T>, indices: seq<int>)
  {
    forall k :: 0 <= k < |indices| ==> 0 <= indices[k] < |listing|
  }

  /** Resolves each index in turn, left to right, stopping at the first one out of range. */
  function ResolveEach<T>(listing: seq<T>, indices: seq<int>): (r: Result<seq<T>, SelectionError>)
    ensures r.Ok? <==> AllInRange(listing, indices)
    ensures r.Ok? ==> |r.value| == |indices|
    ensures r.Ok? ==> forall k :: 0 <= k < |indices| ==> r.value[k] == listing[indices[k]]
    ensures r.Err? ==> exists k :: 0 <= k < |indices| && !(0 <= indices[k] < |listing|)
                                   && r.error == OutOfRange(indices[k], |listing|)
                                   && AllInRange(listing, indices[..k])
  {
    if indices == [] then Ok([])
    else
      var head := Resolve(listing, indices[0]);
      if head.Err? then
        assert indices[..0] == [];
        head.PropagateFailure()
      else
        var tail := ResolveEach(listing, indices[1..]);
        if tail.Err? then
          assert forall k :: 1 <= k <= |indices| ==> indices[..k] == [indices[0]] + indices[1..][..k - 1];
          tail.PropagateFailure()
        else
          Ok([head.value] + tail.value)
  }

  /** Resolves a non-empty list of indices; duplicates resolve to the same entry again. */
  function ResolveMany<T>(listing: seq<T>, indices: seq<int>): (r: Result<seq<T>, SelectionError>)
    ensures r.Ok? <==> |indices| > 0 && AllInRange(listing, indices)
    ensures r.Ok? ==> |r.value| == |indices|
    ensures r.Ok? ==> forall k :: 0 <= k < |indices| ==> r.value[k] == listing[indices[k]]
    ensures indices == [] ==> r == Err(NoIndices)
    ensures r.Err? && indices != [] ==>
              exists k :: 0 <= k < |indices| && !(0 <= indices[k] < |listing|)
                          && r.error == OutOfRange(indices[k], |listing|)
                          && AllInRange(listing, indices[..k])
  {
    if indices == [] then Err(NoIndices) else ResolveEach(listing, indices)
  }

  /** The subnet ids named by a comma-separated reply: one id per index, in reply order. */
  function ChooseSubnetIds(subnets: seq<Subnet>, indices: seq<int>): (r: Result<seq<string>, SelectionError>)
    ensures r.Ok? <==> |indices| > 0 && AllInRange(subnets, indices)
    ensures r.Ok? ==> |r.value| == |indices|
    ensures r.Ok? ==> forall k :: 0 <= k < |indices| ==> r.value[k] == subnets[indices[k]].subnetId
    ensures r.Err? ==> r == ResolveMany(subnets, indices).PropagateFailure()
  {
    var chosen :- ResolveMany(subnets, indices);
    Ok(seq(|chosen|, k requires 0 <= k < |chosen| => chosen[k].subnetId))
  }

  /** A list resolution succeeds exactly when each of its indices resolves on its own, and
      then it holds, position by position, what those single resolutions give. */
  lemma ResolveManyAgreesWithResolve<T>(listing: seq<T>, indices: seq<int>)
    requires |indices| > 0
    ensures ResolveMany(listing, indices).Ok? <==> forall k :: 0 <= k < |indices| ==> Resolve(listing, indices[k]).Ok?
    ensures ResolveMany(listing, indices).Ok? ==>
              forall k :: 0 <= k < |indices| ==> Resolve(listing, indices[k]) == Ok(ResolveMany(listing, indices).value[k])
    ensures ResolveMany(listing, indices).Err? ==>
              exists k :: 0 <= k < |indices| && Resolve(listing, indices[k]) == ResolveMany(listing, indices).PropagateFailure()
  {
  }
}
