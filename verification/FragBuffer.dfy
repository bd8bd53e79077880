/**
 The growing receive buffer: ws_frag_append of src/ws_internal.h and the two
 frag_append copies in src/ws_client.c and src/ws_pool.c.
 */
module FragBuffer {
  import opened Common

  const INIT_CAP := 4096
  const SIZE_LIMIT := 0x1_0000_0000_0000_0000  // size_t is 64 bits wide
  const HALF_LIMIT := 0x8000_0000_0000_0000

  /** size_t multiplication by two, which wraps. */
  function TwiceWrapped(cap: nat): nat {
    2 * cap % SIZE_LIMIT
  }

  /** The capacity tested by the k-th turn of the doubling loop. */
  function CapAfter(cap: nat, k: nat): nat {
    if k == 0 then cap else TwiceWrapped(CapAfter(cap, k - 1))
  }

  /** Capacities the buffer can have: 4096 doubled some number of times. */
  ghost predicate IsCapacity(cap: nat) {
    exists i: nat :: i <= 51 && cap == INIT_CAP * Pow2(i)
  }

  lemma Pow2Facts()
    ensures INIT_CAP * Pow2(51) == HALF_LIMIT
    ensures INIT_CAP * Pow2(52) == SIZE_LIMIT
  {
    assert Pow2(10) == 1024;
    Pow2Add(10, 10);
    Pow2Add(20, 20);
    Pow2Add(40, 11);
    assert Pow2(11) == 2048;
    assert Pow2(52) == 2 * Pow2(51);
  }

  lemma {:induction false} CapAfterIs(i: nat, k: nat)
    requires i <= 51
    ensures CapAfter(INIT_CAP * Pow2(i), k) == if i + k <= 51 then INIT_CAP * Pow2(i + k) else 0
  {
    Pow2Facts();
    if k > 0 {
      CapAfterIs(i, k - 1);
      assert i + k - 1 <= 51 ==> Pow2(i + k) == 2 * Pow2(i + k - 1);
      if i + k <= 51 {
        Pow2Monotone(i + k, 51);
      }
    } else {
      Pow2Monotone(i, 51);
    }
  }

  /** The doubling loop comes to an end exactly when 2^63 bytes are enough: past that it wraps to 0 and stays there. */
  lemma DoublingEndsIff(cap: nat, needed: nat)
    requires IsCapacity(cap) && needed > 0
    ensures (exists k: nat :: CapAfter(cap, k) >= needed) <==> needed <= HALF_LIMIT
  {
    var i: nat :| i <= 51 && cap == INIT_CAP * Pow2(i);
    Pow2Facts();
    if needed <= HALF_LIMIT {
      CapAfterIs(i, 51 - i);
      assert CapAfter(cap, 51 - i) >= needed;
    }
    forall k: nat | CapAfter(cap, k) >= needed
      ensures needed <= HALF_LIMIT
    {
      CapAfterIs(i, k);
      if i + k <= 51 {
        Pow2Monotone(i + k, 51);
      }
    }
  }

  lemma CapacityBelowHalfDoubles(cap: nat)
    requires IsCapacity(cap) && cap < HALF_LIMIT
    ensures IsCapacity(2 * cap) && TwiceWrapped(cap) == 2 * cap
  {
    var i: nat :| i <= 51 && cap == INIT_CAP * Pow2(i);
    Pow2Facts();
    assert i != 51;
    assert Pow2(i + 1) == 2 * Pow2(i);
    assert 2 * cap == INIT_CAP * Pow2(i + 1);
    Pow2Monotone(i + 1, 51);
  }

  class FragBuffer {
    var buf: array<Byte>  // NULL is the block of length 0
    var len: nat
    var cap: nat
    ghost var moved: nat  // bytes all calls of realloc together have had to copy
    ghost var peak: nat   // the longest content held so far

    ghost predicate Valid()
      reads this
    {
      && buf.Length == cap
      && len <= cap && len <= peak
      && if cap == 0 then moved == 0
         else IsCapacity(cap) && moved < cap && cap <= Max(INIT_CAP, 2 * peak)
    }

    ghost function Contents(): seq<Byte>
      reads this, buf
      requires Valid()
    {
      buf[..len]
    }

    constructor ()
      ensures Valid() && Contents() == [] && fresh(buf)
    {
      buf := new Byte[0];
      len, cap, moved, peak := 0, 0, 0, 0;
    }

    /** frag_len = 0. */
    method Reset()
      requires Valid()
      modifies this`len
      ensures Valid() && Contents() == []
    {
      len := 0;
    }

    /** The least capacity of the doubling sequence that holds needed bytes. */
    method GrownCapacity(needed: nat) returns (newCap: nat)
      requires Valid() && cap < needed <= HALF_LIMIT
      ensures IsCapacity(newCap) && needed <= newCap <= Max(INIT_CAP, 2 * needed)
      ensures 2 * cap <= newCap
    {
      newCap := if cap != 0 then cap else INIT_CAP;
      assert INIT_CAP == INIT_CAP * Pow2(0);
      while newCap < needed
        invariant IsCapacity(newCap)
        invariant newCap == cap || 2 * cap <= newCap
        invariant newCap <= Max(INIT_CAP, 2 * needed)
        decreases HALF_LIMIT - newCap
      {
        CapacityBelowHalfDoubles(newCap);
        newCap := newCap * 2 % SIZE_LIMIT;
      }
    }

    /** A realloc that succeeds. */
    method Realloc(newCap: nat)
      requires Valid() && IsCapacity(newCap) && len <= newCap && 2 * cap <= newCap
      modifies this
      ensures len == old(len) && peak == old(peak) && moved < newCap
      ensures buf.Length == cap == newCap && fresh(buf) && buf[..len] == old(buf[..len])
    {
      var p := new Byte[newCap];
      forall i | 0 <= i < cap {
        p[i] := buf[i];
      }
      assert p[..len] == buf[..len];
      moved := moved + cap;
      buf := p;
      cap := newCap;
    }

    /** memcpy of the data behind the content. */
    method Memcpy(data: seq<Byte>)
      requires len + |data| <= buf.Length
      modifies buf
      ensures buf[..len + |data|] == old(buf[..len]) + data
    {
      forall i | 0 <= i < |data| {
        buf[len + i] := data[i];
      }
      assert buf[..len] == old(buf[..len]);
      assert buf[len..len + |data|] == data by {
        forall i | 0 <= i < |data|
          ensures buf[len..len + |data|][i] == data[i]
        {
          assert buf[len..len + |data|][i] == buf[len + i];
        }
      }
      assert buf[..len + |data|] == buf[..len] + buf[len..len + |data|];
    }

    /** frag_append. realloc succeeds when allocOk holds; it is asked only if the data does not fit. */
    method Append(data: seq<Byte>, allocOk: bool) returns (ok: bool)
      requires Valid() && len + |data| <= HALF_LIMIT
      modifies this, buf
      ensures Valid()
      ensures ok == (allocOk || old(len) + |data| <= old(cap))
      ensures Contents() == if ok then old(Contents()) + data else old(Contents())
      ensures buf == old(buf) || fresh(buf)
      ensures !ok ==> unchanged(this)
      ensures old(cap) <= cap && peak == Max(old(peak), len)
    {
      if len + |data| > cap {
        var newCap := GrownCapacity(len + |data|);
        if !allocOk {
          return false;
        }
        Realloc(newCap);
      }
      Memcpy(data);
      len := len + |data|;
      peak := Max(peak, len);
      return true;
    }
  }
}
