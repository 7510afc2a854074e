/** The two radios' reader threads: RTL-SDR transfers and SpyServer frames, cut into ring blocks
    tagged with a generation. */
module IqSources {
  /** One byte of IQ: its value, the generation its reader took it in under, and the era (number of
      retunes in effect) it was captured in. Only the proofs read the last two. */
  datatype IqByte = IqByte(value: bv8, gen: nat, era: nat)

  /** A block offered to the ring, and whether the ring had room. */
  datatype Offer = Offer(gen: nat, data: seq<IqByte>, kept: bool)

  function Flat(flow: seq<Offer>): seq<IqByte> {
    if flow == [] then [] else Flat(flow[..|flow| - 1]) + flow[|flow| - 1].data
  }

  function LostBytes(flow: seq<Offer>): nat {
    if flow == [] then 0
    else LostBytes(flow[..|flow| - 1]) + (if flow[|flow| - 1].kept then 0 else |flow[|flow| - 1].data|)
  }

  lemma FlatAppend(flow: seq<Offer>, o: Offer)
    ensures Flat(flow + [o]) == Flat(flow) + o.data
    ensures LostBytes(flow + [o]) == LostBytes(flow) + (if o.kept then 0 else |o.data|)
  {
    assert (flow + [o])[..|flow|] == flow;
  }

  /** A block holds whole I/Q pairs and fits. */
  predicate WholePairs(o: Offer, cap: nat) { 0 < |o.data| <= cap && |o.data| % 2 == 0 }

  predicate AllGen(bytes: seq<IqByte>, g: nat) { forall k :: 0 <= k < |bytes| ==> bytes[k].gen == g }

  /** The accumulator both readers coalesce with: full blocks go to the ring as they fill. */
  class BlockWriter {
    const cap: nat               // bytes per full block: 10 ms
    var acc: seq<IqByte>
    var accGen: nat
    var flow: seq<Offer>         // every block offered so far
    var dropped: nat             // whole samples refused by a full ring

    ghost predicate Valid()
      reads this
    {
      |acc| < cap && Sound()
    }

    ghost predicate Sound()
      reads this
    {
      && 2 <= cap && cap % 2 == 0 && |acc| <= cap
      && (forall k :: 0 <= k < |flow| ==> WholePairs(flow[k], cap))
      && 2 * dropped == LostBytes(flow)
    }

    /** Everything taken in so far, in order: offered blocks, then the partial block. */
    ghost function Taken(): seq<IqByte>
      reads this
    {
      Flat(flow) + acc
    }

    /** No block is labelled with a generation other than its bytes'. */
    ghost predicate Pure()
      reads this
    {
      AllGen(acc, accGen) && forall k :: 0 <= k < |flow| ==> AllGen(flow[k].data, flow[k].gen)
    }

    /** Byte b is the front of the block with index n, offered or still partial, under this label. */
    ghost predicate Leads(b: IqByte, n: nat)
      reads this
    {
      if |flow| <= n then acc != [] && acc[0] == b
      else flow[n].gen == accGen && flow[n].data != [] && flow[n].data[0] == b
    }

    constructor (cap: nat)
      requires 2 <= cap && cap % 2 == 0
      ensures Valid() && Pure() && Taken() == [] && this.cap == cap && acc == [] && accGen == 0
    {
      this.cap := cap;
      acc, accGen, flow, dropped := [], 0, [], 0;
    }

    /** Whole I/Q pairs only; an odd byte carries into the next block. */
    method PublishAcc()
      requires Sound()
      modifies this
      ensures Valid() && Taken() == old(Taken()) && accGen == old(accGen)
      ensures acc == old(acc)[|old(acc)| - |old(acc)| % 2..]
      ensures Fronts(old(flow), old(acc))
      ensures old(Pure()) ==> Pure()
    {
      var n := |acc| - |acc| % 2;
      assert acc == acc[..n] + acc[n..];
      if n > 0 {
        assert Flat(flow) + acc[..n] + acc[n..] == Flat(flow) + acc;
        OfferBlock(acc[..n]);
        hide Flat, LostBytes;
      }
      acc := acc[n..];
    }

    /** The ring takes the block or, when full, counts its samples as dropped. */
    method OfferBlock(data: seq<IqByte>)
      requires 2 * dropped == LostBytes(flow) && |data| % 2 == 0
      modifies this`flow, this`dropped
      ensures 2 * dropped == LostBytes(flow) && Flat(flow) == Flat(old(flow)) + data
      ensures |flow| == old(|flow|) + 1 && old(flow) <= flow
      ensures flow[old(|flow|)].gen == accGen && flow[old(|flow|)].data == data
    {
      var ok: bool := *;
      FlatAppend(flow, Offer(accGen, data, ok));
      flow := flow + [Offer(accGen, data, ok)];
      if !ok { dropped := dropped + |data| / 2; }
    }

    /** After publishing `held`, its first byte fronts the block it went into. */
    ghost predicate Fronts(before: seq<Offer>, held: seq<IqByte>)
      reads this
    {
      && before <= flow
      && (|held| >= 2 ==>
        |flow| == |before| + 1 && flow[|before|].gen == accGen && flow[|before|].data != []
        && flow[|before|].data[0] == held[0])
      && (|held| < 2 ==> flow == before)
    }

    method Put(piece: seq<IqByte>, ghost front: IqByte, ghost n: nat)
      requires Valid() && |acc| + |piece| <= cap
      modifies this
      ensures Valid() && Taken() == old(Taken()) + piece && accGen == old(accGen)
      ensures old(Pure()) && AllGen(piece, accGen) ==> Pure()
      ensures old(flow) <= flow
      ensures n <= old(|flow|) && old(Leads(front, n)) ==> Leads(front, n)
    {
      hide Flat, LostBytes, WholePairs;
      assert Flat(flow) + (acc + piece) == Flat(flow) + acc + piece;
      acc := acc + piece;
      if |acc| == cap { PublishAcc(); }
    }

    method Append(buf: seq<IqByte>)
      requires Valid()
      modifies this
      ensures Valid() && Taken() == old(Taken()) + buf && accGen == old(accGen)
      ensures old(Pure()) && AllGen(buf, accGen) ==> Pure()
      ensures old(acc) != [] ==> Leads(old(acc)[0], old(|flow|))
    {
      ghost var front, n, all := if acc != [] then acc[0] else IqByte(0, 0, 0), |flow|, Taken() + buf;
      hide Flat, LostBytes, WholePairs, Sound, Pure, Taken, Leads;
      var off := 0;
      assert buf[0..] == buf;
      while off < |buf|
        invariant off <= |buf| && Valid() && accGen == old(accGen) && n <= |flow|
        invariant Taken() + buf[off..] == all
        invariant old(Pure()) && AllGen(buf, accGen) ==> Pure()
        invariant old(acc) != [] ==> Leads(front, n)
      {
        var take := if cap - |acc| < |buf| - off then cap - |acc| else |buf| - off;
        SplitAt(Taken(), buf, off, take);
        assert AllGen(buf, accGen) ==> AllGen(buf[off..off + take], accGen);
        Put(buf[off..off + take], front, n);
        off := off + take;
      }
      assert Taken() + buf[off..] == Taken();
    }

    /** A retune since the last bytes: flush the partial block early, then label with g. */
    method Retag(g: nat)
      requires Valid()
      modifies this
      ensures Valid() && Taken() == old(Taken()) && accGen == g && |acc| % 2 == old(|acc|) % 2
      ensures old(Pure()) && old(|acc| % 2 == 0 || accGen == g) ==> Pure()
      ensures old(Pure()) && old(|acc| % 2 == 1 && accGen != g) ==> |acc| == 1 && acc[0].gen == old(accGen)
    {
      hide Flat, LostBytes, WholePairs;
      if |acc| >= 2 && accGen != g { PublishAcc(); }
      accGen := g;
    }
  }

  lemma SplitAt<T>(a: seq<T>, buf: seq<T>, off: nat, take: nat)
    requires off + take <= |buf|
    ensures a + buf[off..] == a + buf[off..off + take] + buf[off + take..]
  {}

  /** Offered blocks are whole pairs, so an odd partial block means an odd number of bytes so far. */
  lemma {:induction false} FlatEven(flow: seq<Offer>, cap: nat)
    requires forall k :: 0 <= k < |flow| ==> WholePairs(flow[k], cap)
    ensures |Flat(flow)| % 2 == 0
  {
    if flow != [] {
      FlatEven(flow[..|flow| - 1], cap);
      assert WholePairs(flow[|flow| - 1], cap);
    }
  }

  // ---- RTL-SDR

  class RtlSource {
    const w: BlockWriter

    constructor (rate: nat)
      requires 100 <= rate
      ensures w.Valid() && w.Pure() && w.Taken() == [] && fresh(w)
    {
      var bytes := rate / 100 * 2;
      w := new BlockWriter(if bytes < 48000 then bytes else 48000);
    }

    /** One USB transfer, under the generation loaded at its start. Nothing is lost or reordered; a
        block mixes generations exactly when a retune lands while an odd byte is carried. */
    method OnSamples(buf: seq<IqByte>, g: nat)
      requires w.Valid() && AllGen(buf, g)
      modifies w
      ensures w.Valid() && w.Taken() == old(w.Taken()) + buf && w.accGen == g
      ensures |w.acc| % 2 == |w.Taken()| % 2
      ensures old(w.Pure()) && old(|w.acc| % 2 == 0 || w.accGen == g) ==> w.Pure()
      ensures old(w.Pure()) && old(|w.acc| % 2 == 1 && w.accGen != g) ==> !w.Pure()
    {
      w.Retag(g);
      w.Append(buf);
      FlatEven(w.flow, w.cap);
    }
  }
}
