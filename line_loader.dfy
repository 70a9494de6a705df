/** Loading a checkout's lines together with the channel listing of each
    line's variant for the checkout's channel. */
module LineLoader {
  import opened Wrappers
  import opened Entities

  /** One loaded checkout line with the catalog records it depends on. */
  datatype CheckoutLineInfo = CheckoutLineInfo(
    line: CheckoutLine,
    variant: ProductVariant,
    channelListing: ProductVariantChannelListing,
    product: Product,
    productType: ProductType,
    collections: seq<Collection>)

  /** The listing a scan over `listings` ends with when every listing of
      channel `channelId` overwrites the previous pick. */
  function LastMatchingListing(listings: seq<ProductVariantChannelListing>, channelId: nat)
    : (r: Option<ProductVariantChannelListing>)
    ensures r.None? <==> forall i :: 0 <= i < |listings| ==> listings[i].channelId != channelId
    ensures r.Some? ==> r.value in listings && r.value.channelId == channelId
  {
    if |listings| == 0 then None
    else if listings[|listings| - 1].channelId == channelId then Some(listings[|listings| - 1])
    else
      var init := listings[..|listings| - 1];
      assert forall i :: 0 <= i < |init| ==> init[i] == listings[i];
      LastMatchingListing(init, channelId)
  }

  /** Position i holds a listing of the channel and none follows it. */
  ghost predicate IsLastMatchAt(listings: seq<ProductVariantChannelListing>, channelId: nat, i: int) {
    && 0 <= i < |listings|
    && listings[i].channelId == channelId
    && (forall k :: i < k < |listings| ==> listings[k].channelId != channelId)
  }

  /** When several listings are for the channel, the last of them wins. */
  lemma {:induction false} LastMatchingListingIsLast(listings: seq<ProductVariantChannelListing>, channelId: nat, i: int)
    requires IsLastMatchAt(listings, channelId, i)
    ensures LastMatchingListing(listings, channelId) == Some(listings[i])
  {
    var n := |listings|;
    if i < n - 1 {
      var init := listings[..n - 1];
      assert listings[n - 1].channelId != channelId;
      assert IsLastMatchAt(init, channelId, i);
      LastMatchingListingIsLast(init, channelId, i);
    }
  }

  /** Whether a line's variant is listed in the channel. */
  predicate HasListing(line: CheckoutLine, channelId: nat) {
    LastMatchingListing(line.variant.channelListings, channelId).Some?
  }

  function LineInfo(line: CheckoutLine, listing: ProductVariantChannelListing): CheckoutLineInfo {
    CheckoutLineInfo(
      line, line.variant, listing, line.variant.product,
      line.variant.product.productType, line.variant.product.collections)
  }

  /** The loaded lines: every line whose variant is listed in the channel,
      in order, paired with the last matching listing; other lines are dropped. */
  function LoadedLines(lines: seq<CheckoutLine>, channelId: nat): (r: seq<CheckoutLineInfo>)
    ensures |r| <= |lines|
    ensures forall k :: 0 <= k < |r| ==>
      && r[k].line in lines
      && r[k].channelListing.channelId == channelId
      && LastMatchingListing(r[k].line.variant.channelListings, channelId) == Some(r[k].channelListing)
      && r[k] == LineInfo(r[k].line, r[k].channelListing)
  {
    if |lines| == 0 then []
    else
      var prefix := LoadedLines(lines[..|lines| - 1], channelId);
      var line := lines[|lines| - 1];
      assert forall l :: l in lines[..|lines| - 1] ==> l in lines;
      match LastMatchingListing(line.variant.channelListings, channelId)
      case None => prefix
      case Some(listing) => prefix + [LineInfo(line, listing)]
  }

  /** The positions of the lines that are kept, in increasing order. */
  ghost function KeptIndices(lines: seq<CheckoutLine>, channelId: nat): seq<nat>
  {
    if |lines| == 0 then []
    else if HasListing(lines[|lines| - 1], channelId)
    then KeptIndices(lines[..|lines| - 1], channelId) + [|lines| - 1]
    else KeptIndices(lines[..|lines| - 1], channelId)
  }

  ghost predicate StrictlyIncreasing(idx: seq<nat>) {
    forall i, j :: 0 <= i < j < |idx| ==> idx[i] < idx[j]
  }

  /** The kept positions are positions of the input, in increasing order. */
  lemma {:induction false} KeptIndicesIncrease(lines: seq<CheckoutLine>, channelId: nat)
    ensures StrictlyIncreasing(KeptIndices(lines, channelId))
    ensures forall k :: 0 <= k < |KeptIndices(lines, channelId)| ==> KeptIndices(lines, channelId)[k] < |lines|
  {
    if |lines| > 0 {
      var n := |lines|;
      KeptIndicesIncrease(lines[..n - 1], channelId);
    }
  }

  /** The loaded lines are an order-preserving subsequence of the checkout's
      lines: the k-th loaded line sits at position KeptIndices[k] and these
      positions increase. */
  lemma {:induction false} LoadedLinesAreOrderedSubsequence(lines: seq<CheckoutLine>, channelId: nat)
    ensures var r := LoadedLines(lines, channelId);
      var idx := KeptIndices(lines, channelId);
      && |idx| == |r|
      && StrictlyIncreasing(idx)
      && (forall k :: 0 <= k < |idx| ==> idx[k] < |lines| && r[k].line == lines[idx[k]])
  {
    KeptIndicesIncrease(lines, channelId);
    if |lines| > 0 {
      var n := |lines|;
      var init := lines[..n - 1];
      LoadedLinesAreOrderedSubsequence(init, channelId);
      var idx0 := KeptIndices(init, channelId);
      var r0 := LoadedLines(init, channelId);
      assert forall k :: 0 <= k < |idx0| ==> r0[k].line == lines[idx0[k]] by {
        forall k | 0 <= k < |idx0| ensures r0[k].line == lines[idx0[k]] {
          assert init[idx0[k]] == lines[idx0[k]];
        }
      }
    }
  }

  /** A position of the input is kept exactly when the variant of its line is
      listed in the channel: unlisted lines are dropped, without error. */
  lemma {:induction false} KeptIndicesAreListedLines(lines: seq<CheckoutLine>, channelId: nat)
    ensures forall i :: 0 <= i < |lines| ==>
      (i in KeptIndices(lines, channelId) <==> HasListing(lines[i], channelId))
    ensures forall i :: i in KeptIndices(lines, channelId) ==> i < |lines|
  {
    if |lines| > 0 {
      var n := |lines|;
      var init := lines[..n - 1];
      KeptIndicesAreListedLines(init, channelId);
      var idx0 := KeptIndices(init, channelId);
      assert forall i :: 0 <= i < n - 1 ==> init[i] == lines[i];
      assert n - 1 !in idx0;
    }
  }

  /** fetch_checkout_lines: one pass over the lines; for each, a scan over the
      variant's listings in which every listing of the checkout's channel
      replaces the one found so far; lines without one are skipped. */
  method FetchCheckoutLines(checkout: Checkout) returns (linesInfo: seq<CheckoutLineInfo>)
    ensures linesInfo == LoadedLines(checkout.lines, checkout.channel.id)
    ensures forall k :: 0 <= k < |linesInfo| ==> linesInfo[k].channelListing.channelId == checkout.channel.id
  {
    var lines := checkout.lines;
    var channelId := checkout.channel.id;
    linesInfo := [];
    for i := 0 to |lines|
      invariant linesInfo == LoadedLines(lines[..i], channelId)
    {
      var line := lines[i];
      var listings := line.variant.channelListings;
      var variantChannelListing: Option<ProductVariantChannelListing> := None;
      for j := 0 to |listings|
        invariant variantChannelListing == LastMatchingListing(listings[..j], channelId)
      {
        if listings[j].channelId == channelId {
          variantChannelListing := Some(listings[j]);
        }
        assert listings[..j + 1][..j] == listings[..j];
      }
      assert listings[..|listings|] == listings;
      assert lines[..i + 1][..i] == lines[..i];
      if variantChannelListing.None? {
        continue;
      }
      linesInfo := linesInfo + [LineInfo(line, variantChannelListing.value)];
    }
    assert lines[..|lines|] == lines;
  }
}
