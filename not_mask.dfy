/** The exclusion-mask test of DoTrackit.c (`CheckNotMask`): whether a voxel
    lies in a NOT-mask. `amask[id]` holds the mask values of voxel `id`, one
    per network; with `AO` set each network has its own mask, otherwise the
    single mask in column 0 applies to all. */
module NotMask {

  /** 1 when the consulted mask value is non-zero, else 0. */
  function CheckNotMask(id: int, br: int, amask: seq<seq<int>>, AO: int): (out: int)
    requires 0 <= id < |amask|
    requires AO != 0 ==> 0 <= br < |amask[id]|
    requires AO == 0 ==> 0 < |amask[id]|
    ensures out == 0 || out == 1
    ensures AO != 0 ==> (out == 1 <==> amask[id][br] != 0)
    ensures AO == 0 ==> (out == 1 <==> amask[id][0] != 0)
  {
    if AO != 0 then
      (if amask[id][br] != 0 then 1 else 0)
    else
      (if amask[id][0] != 0 then 1 else 0)
  }

  /** With a single shared mask the network index does not matter. */
  lemma SharedMaskIgnoresNetwork(id: int, br1: int, br2: int, amask: seq<seq<int>>)
    requires 0 <= id < |amask| && 0 < |amask[id]|
    ensures CheckNotMask(id, br1, amask, 0) == CheckNotMask(id, br2, amask, 0)
  {
  }

  /** Only voxel `id`'s row is consulted: changing other rows leaves the result as it was. */
  lemma OnlyOwnRow(id: int, br: int, amask: seq<seq<int>>, other: seq<seq<int>>, AO: int)
    requires 0 <= id < |amask| && 0 <= id < |other| && amask[id] == other[id]
    requires AO != 0 ==> 0 <= br < |amask[id]|
    requires AO == 0 ==> 0 < |amask[id]|
    ensures CheckNotMask(id, br, amask, AO) == CheckNotMask(id, br, other, AO)
  {
  }
}
