/**
 * The NFT collection flow: one image-and-metadata generation per requested
 * item, in index order, keeping only the items that came back with both
 * structured output and a media URL (the URL replaces the item's image).
 * An item without them is skipped; a generation call that throws ends the
 * whole flow with that error.
 */
module NftCollectionFlow {
  import opened Wrappers

  /** One `{trait_type, value}` entry of an item's metadata. */
  datatype Attribute = Attribute(traitType: string, value: string)

  datatype Nft = Nft(name: string, description: string, image: string, attributes: seq<Attribute>)

  /** What one `ai.generate` call produced, or that it threw. */
  datatype Generation =
    | Threw
    | Returned(output: Option<Nft>, mediaUrl: Option<string>)

  /** `output && media?.url`: an object is truthy, an empty URL is not. */
  predicate Usable(g: Generation)
  {
    g.Returned? && g.output.Some? && g.mediaUrl.Some? && g.mediaUrl.value != ""
  }

  function Item(g: Generation): Nft
    requires Usable(g)
  {
    g.output.value.(image := g.mediaUrl.value)
  }

  /** Whether one of the first `n` calls throws. */
  predicate AnyThrew(generate: nat -> Generation, n: nat)
  {
    exists i :: 0 <= i < n && generate(i).Threw?
  }

  /** The indices among the first `n` whose generation is usable, in increasing order. */
  function Kept(generate: nat -> Generation, n: nat): seq<nat>
  {
    if n == 0 then [] else Kept(generate, n - 1) + (if Usable(generate(n - 1)) then [n - 1] else [])
  }

  /** The items the flow collects from the first `n` generations. */
  function Collected(generate: nat -> Generation, n: nat): seq<Nft>
  {
    if n == 0 then []
    else Collected(generate, n - 1) + (if Usable(generate(n - 1)) then [Item(generate(n - 1))] else [])
  }

  /** What the flow returns for `numberOfNfts` items: the collected items, or `None` when a call throws. */
  function Collection(numberOfNfts: int, generate: nat -> Generation): Option<seq<Nft>>
  {
    var n := if numberOfNfts <= 0 then 0 else numberOfNfts;
    if AnyThrew(generate, n) then None else Some(Collected(generate, n))
  }

  /** `0, 1, ..., n - 1`. */
  function Upto(n: nat): (r: seq<nat>)
    ensures |r| == n && forall i :: 0 <= i < n ==> r[i] == i
  {
    if n == 0 then [] else Upto(n - 1) + [n - 1]
  }

  /**
   * The collected items are exactly the usable generations, in increasing
   * index order, and there are at most `n` of them.
   */
  lemma {:induction false} CollectedAreKeptItems(generate: nat -> Generation, n: nat)
    ensures |Collected(generate, n)| == |Kept(generate, n)| <= n
    ensures forall k :: 0 <= k < |Kept(generate, n)| ==>
              Kept(generate, n)[k] < n && Usable(generate(Kept(generate, n)[k]))
              && Collected(generate, n)[k] == Item(generate(Kept(generate, n)[k]))
    ensures forall k, l :: 0 <= k < l < |Kept(generate, n)| ==> Kept(generate, n)[k] < Kept(generate, n)[l]
    ensures forall i :: 0 <= i < n && Usable(generate(i)) ==> i in Kept(generate, n)
  {
    if n > 0 {
      CollectedAreKeptItems(generate, n - 1);
    }
  }

  /**
   * `createNftCollection`: calls `generate` once per index from 0 up, and
   * returns the collected items, or `None` when a call throws (the calls made
   * stop at that index). `calls` lists the indices passed to `generate`.
   */
  method CreateNftCollection(numberOfNfts: int, generate: nat -> Generation)
    returns (nfts: Option<seq<Nft>>, calls: seq<nat>)
    ensures nfts == Collection(numberOfNfts, generate)
    ensures var n := if numberOfNfts <= 0 then 0 else numberOfNfts;
            (nfts.None? <==> AnyThrew(generate, n))
            && (nfts.Some? ==> nfts.value == Collected(generate, n) && calls == Upto(n))
            && (nfts.None? ==> exists j :: 0 <= j < n && generate(j).Threw? && calls == Upto(j + 1)
                                          && !AnyThrew(generate, j))
  {
    var n: nat := if numberOfNfts <= 0 then 0 else numberOfNfts;
    var collected: seq<Nft> := [];
    calls := [];
    var i: nat := 0;
    while i < n
      invariant i <= n
      invariant calls == Upto(i)
      invariant collected == Collected(generate, i)
      invariant !AnyThrew(generate, i)
    {
      var g := generate(i);
      calls := calls + [i];
      if g.Threw? {
        nfts := None;
        return;
      }
      if Usable(g) {
        collected := collected + [Item(g)];
      }
      i := i + 1;
    }
    nfts := Some(collected);
  }
}
