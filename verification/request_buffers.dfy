/** What the port's replacement buffers have to do with the request they were taken for: they are
    taken before it is submitted, and freed by its unmapping. */
module RequestBuffers {
  import opened RequestModel
  import opened RequestTheorems
  import opened RequestLimits
  import opened ScatterGather
  import opened ReadPipeline

  /** What is freed over the life of a request whose list has been unmapped `unmaps` times. */
  function Freed(sg: seq<Entry>, unmaps: nat): seq<nat> {
    if unmaps == 0 then [] else Freed(sg, unmaps - 1) + Replaced(sg)
  }

  /** A read that has been handed back has freed exactly the buffers _sg_init took for it if and only
      if there were none, or its data command went out by DMA; otherwise it has freed nothing. */
  lemma BuffersFreed(cfg: Config, states: seq<Host>, steps: seq<Step>, i: nat, r: Request,
                     buf: nat, len: nat, grants: seq<Grant>)
    requires IsRun(cfg, states, steps) && i < |states| && r in states[i].obj && states[i].obj[r].returned >= 1
    requires 0 < len <= MAX_SEGS * TILE && |grants| == TileCount(len)
    ensures var rec := states[i].obj[r];
            var taken := Taken(Tiles(buf, len), grants, |grants|);
            var freed := Freed(Prepared(buf, len, grants), rec.data.unmaps);
            var sent := rec.main.issued == 1 && r.hasData && cfg.useDma && r.mappable;
      && freed == (if sent then taken else [])
      && (freed == taken <==> taken == [] || sent)
  {
    MappingsBalance(cfg, states, steps, i, r);
    FreedIsTaken(buf, len, grants);
    OnceFreed(Prepared(buf, len, grants), states[i].obj[r].data.unmaps);
    hide IsRun, Prepared, Freed, Taken, Replaced, Tiles;
  }

  lemma OnceFreed(sg: seq<Entry>, unmaps: nat)
    ensures unmaps == 0 ==> Freed(sg, unmaps) == []
    ensures unmaps == 1 ==> Freed(sg, unmaps) == Replaced(sg)
  {
    assert Freed(sg, 0) == [];
    assert [] + Replaced(sg) == Replaced(sg);
  }

  /** Rejecting a read of 100 bytes to an odd address leaks the buffer taken for it. */
  lemma RejectedLeaks() returns (states: seq<Host>, steps: seq<Step>)
    ensures |states| == 4 && IsRun(DMA, states, steps) && READ in states[3].obj && states[3].obj[READ].returned == 1
    ensures Taken(Tiles(0x1001, 100), [Granted(0x8000)], 1) == [0x8000]
    ensures Freed(Prepared(0x1001, 100, [Granted(0x8000)]), states[3].obj[READ].data.unmaps) == []
  {
    OneTaken();
    hide Taken, Tiles, Prepared;
    states, steps := RejectedNeverUnmapped();
    OnceFreed(Prepared(0x1001, 100, [Granted(0x8000)]), 0);
  }

  lemma OneTaken()
    ensures TileCount(100) == 1 && Taken(Tiles(0x1001, 100), [Granted(0x8000)], 1) == [0x8000]
  {
    var t := Tiles(0x1001, 100);
    assert |t| == 1 && t[0] == Tile(0x1001, 100, 0);
    assert NeedsBounce(t[0]);
    assert Taken(t, [Granted(0x8000)], 0) == [];
  }
}
