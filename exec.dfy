/** The runtime's block executor wrapper: before handing a block to the inner
    executor it removes every digest log from the header (the node appends a
    seal after import, which the runtime would otherwise not recognise).
    `Vec::retain` is modelled by `Retain` over a sequence, specified by
    `Filter`. */
module Exec {
  import opened Primitives

  /** The inner executor `I`: what it does with a block is outside this model;
      it records each block it is asked to execute, in order. */
  class InnerExecutor {
    var executed: seq<Block>

    constructor ()
      ensures executed == []
    {
      executed := [];
    }

    method ExecuteBlock(block: Block)
      modifies this
      ensures executed == old(executed) + [block]
    {
      executed := executed + [block];
    }
  }

  /** The elements of `s` that `keep` accepts, in their original order. */
  function Filter<T>(s: seq<T>, keep: T -> bool): (r: seq<T>)
    ensures |r| <= |s|
  {
    if s == [] then []
    else Filter(s[..|s| - 1], keep) + (if keep(s[|s| - 1]) then [s[|s| - 1]] else [])
  }

  /** Everything `Filter` keeps comes from `s` and satisfies `keep`. */
  lemma {:induction false} FilterSound<T>(s: seq<T>, keep: T -> bool)
    ensures forall i :: 0 <= i < |Filter(s, keep)| ==>
              Filter(s, keep)[i] in s && keep(Filter(s, keep)[i])
  {
    if s != [] {
      FilterSound(s[..|s| - 1], keep);
    }
  }

  /** Nothing that `keep` accepts is dropped: with an accept-all predicate
      `Filter` is the identity, so order is preserved. */
  lemma {:induction false} FilterKeepsAll<T>(s: seq<T>, keep: T -> bool)
    requires forall x :: keep(x)
    ensures Filter(s, keep) == s
  {
    if s != [] {
      FilterKeepsAll(s[..|s| - 1], keep);
    }
  }

  /** With a reject-all predicate nothing survives. */
  lemma {:induction false} FilterDropsAll<T>(s: seq<T>, keep: T -> bool)
    requires forall x :: !keep(x)
    ensures Filter(s, keep) == []
  {
    if s != [] {
      FilterDropsAll(s[..|s| - 1], keep);
    }
  }

  /** `Vec::retain`: a single pass that keeps the accepted elements. */
  method Retain<T>(s: seq<T>, keep: T -> bool) returns (kept: seq<T>)
    ensures kept == Filter(s, keep)
  {
    kept := [];
    var i := 0;
    while i < |s|
      invariant 0 <= i <= |s|
      invariant kept == Filter(s[..i], keep)
    {
      assert s[..i + 1][..i] == s[..i];
      if keep(s[i]) {
        kept := kept + [s[i]];
      }
      i := i + 1;
    }
    assert s[..i] == s;
  }

  /** The closure the executor passes to `retain`: it keeps no log. */
  function DropAll(item: DigestItem): (keep: bool)
  {
    false
  }

  /** The block the inner executor receives for `block`. */
  function StripDigests(block: Block): (stripped: Block)
  {
    Block(block.header.(digest := Digest(Filter(block.header.digest.logs, DropAll))),
          block.extrinsics)
  }

  /** The stripped header has an empty digest log whatever the block carried,
      every other header field is unchanged, and the extrinsics are passed on
      as they were, in the same order. */
  lemma StripDigestsSpec(block: Block)
    ensures StripDigests(block).header.digest.logs == []
    ensures StripDigests(block).header.(digest := block.header.digest) == block.header
    ensures StripDigests(block).extrinsics == block.extrinsics
  {
    FilterDropsAll(block.header.digest.logs, DropAll);
  }

  /** Stripping a block whose header has no logs changes nothing; so stripping
      twice is stripping once. */
  lemma StripDigestsIdempotent(block: Block)
    ensures block.header.digest.logs == [] ==> StripDigests(block) == block
    ensures StripDigests(StripDigests(block)) == StripDigests(block)
  {
    StripDigestsSpec(block);
  }

  /** `BlockExecutor::execute_block`: deconstruct, drop every digest log in
      place, rebuild, and call the inner executor exactly once with the result. */
  method ExecuteBlock(block: Block, inner: InnerExecutor)
    modifies inner
    ensures inner.executed == old(inner.executed) + [StripDigests(block)]
  {
    var header, extrinsics := block.header, block.extrinsics;
    var logs := Retain(header.digest.logs, DropAll);
    header := header.(digest := header.digest.(logs := logs));
    inner.ExecuteBlock(Block(header, extrinsics));
  }
}
