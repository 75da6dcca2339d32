/** FIP VLAN discovery outside fip_special mode: the bounded retry loop (qedf_main.c:161-207, 342-345) and
    the stored 802.1Q tag (qedf_main.c:150-157). */
module Vlan {
  // ---- The tag: VLAN TCI, section 9.6 of IEEE 802.1Q

  function Tag(vid: bv32, prio: bv32): (tag: bv32) { vid | (prio << 13) }

  function TagVid(tag: bv32): (vid: bv32) { tag & 0xFFF }

  function TagPrio(tag: bv32): (prio: bv32) { tag >> 13 }

  /** The tag gives back the VLAN id and the priority if and only if the id has 12 bits. */
  lemma {:induction false} TagDecodesIff(vid: bv32, prio: bv32)
    requires prio <= 7
    ensures TagVid(Tag(vid, prio)) == vid && TagPrio(Tag(vid, prio)) == prio <==> vid <= 0xFFF
  {
    if vid <= 0xFFF {
      VidBack(vid, prio);
      PrioBack(vid, prio);
    } else {
      VidSmall(Tag(vid, prio));
    }
  }

  lemma {:induction false} VidBack(vid: bv32, prio: bv32)
    requires prio <= 7 && vid <= 0xFFF
    ensures (vid | (prio << 13)) & 0xFFF == vid
  {}

  lemma {:induction false} PrioBack(vid: bv32, prio: bv32)
    requires prio <= 7 && vid <= 0xFFF
    ensures (vid | (prio << 13)) >> 13 == prio
  {}

  lemma {:induction false} VidSmall(tag: bv32)
    ensures tag & 0xFFF <= 0xFFF
  {}

  /** A tag is zero, which means "no VLAN", only for id 0 at priority 0. */
  lemma {:induction false} TagZeroIff(vid: bv32, prio: bv32)
    requires prio <= 7
    ensures Tag(vid, prio) == 0 <==> vid == 0 && prio == 0
  {
    if Tag(vid, prio) == 0 {
      assert vid == 0;
      assert prio << 13 == 0;
    }
  }

  // ---- The loop

  /** What the loop finds before it sends a request, and the VLAN id that a response brings, if any. */
  datatype Turn = Turn(linkDown: bool, unloading: bool, response: bv32)

  datatype Result = Result(found: bool, sent: nat, retries: nat, vlan: bv32)

  /** The run of the loop with `retries` attempts left and tag `vlan`. Responses of zero set nothing. */
  function Attempts(retries: nat, vlan: bv32, prio: bv32, turns: nat -> Turn, k: nat): (r: Result)
    ensures r.sent + r.retries == retries
    ensures r.found ==> r.vlan != 0
  {
    if retries == 0 || turns(k).linkDown || turns(k).unloading then Result(false, 0, retries, vlan)
    else if vlan != 0 then Result(true, 0, retries, vlan)
    else
      var v := if turns(k).response == 0 then vlan else Tag(turns(k).response, prio);
      var r := Attempts(retries - 1, v, prio, turns, k + 1);
      r.(sent := r.sent + 1)
  }

  /** Without a response every attempt is used up; the answer to the last attempt comes too late to be
      seen. */
  lemma {:induction false} NoResponse(retries: nat, prio: bv32, turns: nat -> Turn, k: nat)
    requires forall j :: k <= j ==> turns(j) == Turn(false, false, 0)
    ensures Attempts(retries, 0, prio, turns, k) == Result(false, retries, 0, 0)
  {
    if retries > 0 { NoResponse(retries - 1, prio, turns, k + 1); }
  }

  /** The loop succeeds if and only if a response comes while an attempt is left, and nothing stops it
      before it looks again. */
  lemma {:induction false} FoundIff(retries: nat, prio: bv32, turns: nat -> Turn, k: nat)
    requires prio <= 7
    ensures Attempts(retries, 0, prio, turns, k).found <==>
            exists j :: k <= j < k + retries - 1 && Answers(turns, k, j)
  {
    var t := turns(k);
    if retries == 0 || t.linkDown || t.unloading {
      forall j | k <= j < k + retries - 1 ensures !Answers(turns, k, j) { assert k <= k <= j + 1; }
    } else if t.response != 0 {
      forall j | k < j ensures !Answers(turns, k, j) { assert k <= k < j; }
      if retries > 1 { FoundNext(retries, prio, turns, k); }
    } else {
      FoundIff(retries - 1, prio, turns, k + 1);
      forall j | k <= j ensures Answers(turns, k, j) <==> j > k && Answers(turns, k + 1, j) {}
      if Attempts(retries - 1, 0, prio, turns, k + 1).found {
        var j :| k + 1 <= j < k + retries - 1 && Answers(turns, k + 1, j);
        assert Answers(turns, k, j);
      }
    }
  }

  /** The first response comes at turn `j`, and no turn from `k` to the next one stops the loop. */
  ghost predicate Answers(turns: nat -> Turn, k: nat, j: nat) {
    && turns(j).response != 0 && (forall i :: k <= i < j ==> turns(i).response == 0)
    && forall i :: k <= i <= j + 1 ==> !turns(i).linkDown && !turns(i).unloading
  }

  lemma {:induction false} FoundNext(retries: nat, prio: bv32, turns: nat -> Turn, k: nat)
    requires prio <= 7 && retries > 1 && turns(k).response != 0 && !turns(k).linkDown && !turns(k).unloading
    ensures Attempts(retries, 0, prio, turns, k).found <==> Answers(turns, k, k)
  {
    TagZeroIff(turns(k).response, prio);
    var v := Tag(turns(k).response, prio);
    assert Attempts(retries, 0, prio, turns, k).found == Attempts(retries - 1, v, prio, turns, k + 1).found;
  }

  /** The whole run is the rest of it plus `n` requests. */
  ghost predicate Continues(all: Result, rest: Result, n: nat) {
    all.found == rest.found && all.sent == rest.sent + n && all.retries == rest.retries && all.vlan == rest.vlan
  }

  class Discovery {
    const limit: nat              // the fipvlan_retries parameter
    const prio: bv32
    var retries: nat
    var vlan: bv32
    ghost var sent: nat           // requests since the counter was last reset

    /** Requests sent and attempts left always add up to the limit. */
    ghost predicate Valid()
      reads this
    {
      prio <= 7 && sent + retries == limit
    }

    constructor (limit: nat, prio: bv32)
      requires prio <= 7
      ensures Valid() && this.limit == limit && this.prio == prio && sent == 0 && vlan == 0
    {
      this.limit, this.prio := limit, prio;
      retries, vlan, sent := limit, 0, 0;
    }

    /** Link-down clears the tag and resets the counter (qedf_main.c:405, 855). */
    method Reset()
      requires Valid()
      modifies this
      ensures Valid() && sent == 0 && vlan == 0
    {
      retries, vlan, sent := limit, 0, 0;
    }

    /** qedf_set_vlan_id: whoever reads the tag finds the id and the priority in it if and only if the id has
        12 bits, and takes it for "no VLAN" only for id 0 at priority 0. */
    method SetVlanId(vid: bv32)
      requires prio <= 7
      modifies this`vlan
      ensures TagVid(vlan) == vid && TagPrio(vlan) == prio <==> vid <= 0xFFF
      ensures vlan == 0 <==> vid == 0 && prio == 0
      ensures vlan == Tag(vid, prio)
    {
      TagDecodesIff(vid, prio);
      TagZeroIff(vid, prio);
      vlan := Tag(vid, prio);
    }

    /** qedf_initiate_fipvlan_req. */
    method InitiateFipVlanReq(turns: nat -> Turn) returns (found: bool)
      requires Valid()
      modifies this
      ensures Valid() && sent <= limit
      ensures var r := Attempts(old(retries), old(vlan), prio, turns, 0);
              found == r.found && sent == old(sent) + r.sent && retries == r.retries && vlan == r.vlan
    {
      ghost var all := Attempts(retries, vlan, prio, turns, 0);
      var k := 0;
      while retries > 0
        invariant Valid() && old(sent) <= sent
        invariant Continues(all, Attempts(retries, vlan, prio, turns, k), sent - old(sent))
        decreases retries
      {
        var t := turns(k);
        if t.linkDown || t.unloading { return false; }
        if vlan != 0 { return true; }
        sent := sent + 1;
        if t.response != 0 { SetVlanId(t.response); }
        retries := retries - 1;
        k := k + 1;
      }
      return false;
    }

    /** The link-up branch of qedf_handle_link_update. The VLAN in use afterwards is the one that was set
        before, if an attempt is left to notice it, or that of the first response if it came in time; otherwise
        the fallback, also when the last request was answered. `stillUp`: the link is up when the loop has ended. */
    method HandleLinkUp(turns: nat -> Turn, stillUp: bool, fallback: bv32) returns (found: bool)
      requires Valid()
      modifies this
      ensures Valid()
      ensures old(vlan) != 0 ==>
        && found == (old(retries) > 0 && !turns(0).linkDown && !turns(0).unloading)
        && (found ==> vlan == old(vlan) && retries == old(retries))
      ensures old(vlan) == 0 ==>
        && found == (exists j :: 0 <= j < old(retries) - 1 && Answers(turns, 0, j))
        && (found ==> forall j :: Answers(turns, 0, j) ==> vlan == Tag(turns(j).response, prio))
      ensures !found ==> vlan == if stillUp then Tag(fallback, prio) else 0
    {
      if vlan == 0 {
        FoundIff(retries, prio, turns, 0);
        if Attempts(retries, 0, prio, turns, 0).found { FoundTag(retries, prio, turns, 0); }
      }
      found := InitiateFipVlanReq(turns);
      if found { return; }
      if !stillUp {
        vlan := 0;
        return;
      }
      SetVlanId(fallback);
    }
  }

  /** What the loop finds is the first response. */
  lemma {:induction false} FoundTag(retries: nat, prio: bv32, turns: nat -> Turn, k: nat)
    requires prio <= 7 && Attempts(retries, 0, prio, turns, k).found
    ensures forall j :: k <= j && Answers(turns, k, j) ==>
              && Attempts(retries, 0, prio, turns, k).vlan == Tag(turns(j).response, prio)
              && Attempts(retries, 0, prio, turns, k).sent == j - k + 1
  {
    if turns(k).response != 0 {
      TagZeroIff(turns(k).response, prio);
      forall j | k < j ensures !Answers(turns, k, j) { assert k <= k < j; }
    } else {
      FoundTag(retries - 1, prio, turns, k + 1);
      forall j | k <= j && Answers(turns, k, j) ensures j > k && Answers(turns, k + 1, j) {}
    }
  }
}
