/** The capped list of bullet holes drawn where the visitor clicks
    (components/ui/bullet-holes.tsx): each click adds a hole with a fresh id and keeps the
    newest `MAX_HOLES`; a hole is removed by id when its lifetime ends. */
module BulletHoles {
  import opened Seqs

  datatype BulletHole = BulletHole(id: int, x: int, y: int)

  const MAX_HOLES: nat := 12

  /** The reducer of a click: append the hole, then keep the last `MAX_HOLES` when longer. */
  function AddHole(prev: seq<BulletHole>, hole: BulletHole): (r: seq<BulletHole>)
    ensures |r| <= MAX_HOLES
    ensures |r| > 0 && r[|r| - 1] == hole
    ensures |prev| < MAX_HOLES ==> r == prev + [hole]
    ensures |prev| >= MAX_HOLES ==> |r| == MAX_HOLES && r == prev[|prev| - (MAX_HOLES - 1)..] + [hole]
  {
    var next := prev + [hole];
    if |next| > MAX_HOLES then
      assert next[|next| - MAX_HOLES..] == prev[|prev| - (MAX_HOLES - 1)..] + [hole];
      next[|next| - MAX_HOLES..]
    else next
  }

  /** The reducer of an expiry: drop the holes with that id. */
  function RemoveHole(holes: seq<BulletHole>, id: int): (r: seq<BulletHole>)
    ensures forall h :: multiset(r)[h] == if h.id != id then multiset(holes)[h] else 0
    ensures IsSubseq(r, holes)
    ensures |r| <= |holes|
  {
    var keep := (h: BulletHole) => h.id != id;
    FilterCounts(holes, keep);
    FilterSubseq(holes, keep);
    Filter(holes, keep)
  }

  /** Ids strictly increase from the oldest hole to the newest. */
  predicate AscendingIds(holes: seq<BulletHole>) {
    forall i, j :: 0 <= i < j < |holes| ==> holes[i].id < holes[j].id
  }

  /** A hole whose id exceeds every id in the list keeps the ids ascending after the add. */
  lemma AddHoleAscending(prev: seq<BulletHole>, hole: BulletHole)
    requires AscendingIds(prev)
    requires forall h :: h in prev ==> h.id < hole.id
    ensures AscendingIds(AddHole(prev, hole))
  {
    var next := prev + [hole];
    assert AscendingIds(next) by {
      forall i, j | 0 <= i < j < |next| ensures next[i].id < next[j].id {
        if j == |prev| { assert next[i] in prev; }
      }
    }
    if |next| > MAX_HOLES {
      var r := next[|next| - MAX_HOLES..];
      forall i, j | 0 <= i < j < |r| ensures r[i].id < r[j].id {
        assert r[i] == next[|next| - MAX_HOLES + i] && r[j] == next[|next| - MAX_HOLES + j];
      }
    }
  }

  /** Removing holes keeps the ids ascending. */
  lemma RemoveHoleAscending(holes: seq<BulletHole>, id: int)
    requires AscendingIds(holes)
    ensures AscendingIds(RemoveHole(holes, id))
  {
    FilterAscending(holes, (h: BulletHole) => h.id != id);
  }

  lemma {:induction false} FilterAscending(holes: seq<BulletHole>, keep: BulletHole -> bool)
    requires AscendingIds(holes)
    ensures AscendingIds(Filter(holes, keep))
  {
    if holes != [] {
      var tail := holes[1..];
      FilterAscending(tail, keep);
      var rest := Filter(tail, keep);
      if keep(holes[0]) {
        var r := [holes[0]] + rest;
        assert Filter(holes, keep) == r;
        forall i, j | 0 <= i < j < |r| ensures r[i].id < r[j].id {
          if i == 0 {
            assert r[j] == rest[j - 1] && rest[j - 1] in tail;
            var k :| 0 <= k < |tail| && tail[k] == rest[j - 1];
            assert holes[k + 1] == tail[k];
          } else {
            assert r[i] == rest[i - 1] && r[j] == rest[j - 1];
          }
        }
      }
    }
  }

  /** The component's state: the module-level id counter and the holes on screen. */
  class BulletHoleLayer {
    var nextId: int
    var holes: seq<BulletHole>

    /** Every hole has an id below the counter, and the ids ascend. */
    predicate Valid()
      reads this
    {
      && AscendingIds(holes)
      && (forall h :: h in holes ==> h.id < nextId)
      && |holes| <= MAX_HOLES
    }

    constructor()
      ensures Valid()
      ensures nextId == 0 && holes == []
    {
      nextId := 0;
      holes := [];
    }

    /** `addHole`: the hole takes the counter's value, the counter steps on. */
    method Click(x: int, y: int) returns (hole: BulletHole)
      requires Valid()
      modifies this
      ensures Valid()
      ensures hole == BulletHole(old(nextId), x, y)
      ensures nextId == old(nextId) + 1
      ensures holes == AddHole(old(holes), hole)
    {
      hole := BulletHole(nextId, x, y);
      nextId := nextId + 1;
      AddHoleAscending(holes, hole);
      var next := AddHole(holes, hole);
      forall h | h in next ensures h.id < nextId {
        if h != hole {
          if |holes| < MAX_HOLES {
            assert h in holes;
          } else {
            assert h in holes[|holes| - (MAX_HOLES - 1)..];
          }
        }
      }
      holes := next;
    }

    /** The expiry of the hole `id`. */
    method Expire(id: int)
      requires Valid()
      modifies this
      ensures Valid()
      ensures nextId == old(nextId)
      ensures holes == RemoveHole(old(holes), id)
    {
      RemoveHoleAscending(holes, id);
      var r := RemoveHole(holes, id);
      forall h | h in r ensures h.id < nextId {
        assert multiset(r)[h] > 0;
      }
      holes := r;
    }
  }
}
