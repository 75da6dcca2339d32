/** FIP frames (FC-BB-5, clause 7): the two loops that walk a descriptor list as raw bytes
    (qedf_fip.c:93-106, 256-308), and the VLAN request that the driver sends (qedf_fip.c:37-54). */
module Fip {
  type Byte = x: int | 0 <= x < 256

  const FIP_BPW := 4          // bytes per word
  const DT_MAC: Byte := 2
  const DT_NAME: Byte := 4
  const DT_VN_ID: Byte := 11
  const DT_VLAN: Byte := 14

  /** A descriptor: its type and what follows the two header bytes. */
  datatype Desc = Desc(dtype: Byte, body: seq<Byte>)

  function Words(d: Desc): (n: nat) { (|d.body| + 2) / FIP_BPW }

  /** Whole words, a length that fits its byte, and room for the fields of its type. */
  ghost predicate WellFormed(d: Desc) {
    && (|d.body| + 2) % FIP_BPW == 0 && 0 < Words(d) < 256
    && (d.dtype == DT_MAC ==> |d.body| >= 6) && (d.dtype == DT_NAME ==> |d.body| >= 10)
    && (d.dtype == DT_VN_ID ==> |d.body| >= 18)
  }

  ghost predicate AllWellFormed(ds: seq<Desc>) { forall i :: 0 <= i < |ds| ==> WellFormed(ds[i]) }

  function Bytes(d: Desc): (b: seq<Byte>)
    requires Words(d) < 256
  {
    [d.dtype, Words(d)] + d.body
  }

  ghost function Encode(ds: seq<Desc>): (b: seq<Byte>)
    requires AllWellFormed(ds)
  {
    if |ds| == 0 then [] else Bytes(ds[0]) + Encode(ds[1..])
  }

  function Be16(hi: Byte, lo: Byte): (n: nat) { hi * 256 + lo }

  // ---- What the fields mean

  function VlanOf(d: Desc): (vid: nat)
    requires |d.body| >= 2
  {
    Be16(d.body[0], d.body[1])
  }

  function MacOf(d: Desc): (mac: seq<Byte>)
    requires |d.body| >= 6
  {
    d.body[..6]
  }

  function NameOf(d: Desc): (wwn: seq<Byte>)
    requires |d.body| >= 10
  {
    d.body[2..10]
  }

  /** The port a VN_ID descriptor names: by MAC address, fabric id or world-wide port name. */
  predicate NamesUs(d: Desc, us: Port)
    requires |d.body| >= 18
  {
    d.body[10..18] == us.wwpn || d.body[7..10] == us.fcId || d.body[..6] == us.mac
  }

  /** What a descriptor was built from is what its fields give back; for a VN_ID, the port it was built for. */
  lemma {:induction false} FieldsDecode(d: Desc, mac: seq<Byte>, id: seq<Byte>, name: seq<Byte>, us: Port)
    requires |mac| == 6 && |id| == 3 && |name| == 8
    ensures d.body == mac ==> MacOf(d) == mac
    ensures d.body == [0, 0] + name ==> NameOf(d) == name
    ensures d.body == mac + [0] + id + name ==> (NamesUs(d, us) <==> us.mac == mac || us.fcId == id || us.wwpn == name)
  {
    if d.body == mac + [0] + id + name {
      assert d.body[..6] == mac && d.body[7..10] == id && d.body[10..18] == name;
    }
    if d.body == [0, 0] + name { assert d.body[2..10] == name; }
    if d.body == mac { assert d.body[..6] == mac; }
  }

  datatype Port = Port(mac: seq<Byte>, fcId: seq<Byte>, wwpn: seq<Byte>)
  datatype Fcf = Fcf(mac: seq<Byte>, switchName: seq<Byte>)

  /** The VLAN of the last VLAN descriptor, 0 without one. */
  ghost function LastVlan(ds: seq<Desc>): (vid: nat)
    requires AllWellFormed(ds)
  {
    if |ds| == 0 then 0
    else if ds[|ds| - 1].dtype == 14 then VlanOf(ds[|ds| - 1])
    else LastVlan(ds[..|ds| - 1])
  }

  /** There is no VN_ID descriptor, or the last one names us. */
  ghost predicate ForUs(ds: seq<Desc>, us: Port)
    requires AllWellFormed(ds)
  {
    |ds| == 0
    || if ds[|ds| - 1].dtype == 11 then NamesUs(ds[|ds| - 1], us) else ForUs(ds[..|ds| - 1], us)
  }

  /** The last descriptor of its type decides, and without one the VLAN is 0 and the list is for us. */
  lemma {:induction false} LastDecides(ds: seq<Desc>, i: int, us: Port)
    requires AllWellFormed(ds) && -1 <= i < |ds|
    ensures (i >= 0 ==> ds[i].dtype == 14) && (forall j :: i < j < |ds| ==> ds[j].dtype != 14) ==>
              LastVlan(ds) == if i < 0 then 0 else ds[i].body[0] as int * 256 + ds[i].body[1] as int
    ensures (i >= 0 ==> ds[i].dtype == 11) && (forall j :: i < j < |ds| ==> ds[j].dtype != 11) ==>
              (ForUs(ds, us) <==> i < 0 || NamesUs(ds[i], us))
  {
    if |ds| > 0 && i < |ds| - 1 { LastDecides(ds[..|ds| - 1], i, us); }
  }

  ghost predicate HasMac(ds: seq<Desc>, mac: seq<Byte>)
    requires AllWellFormed(ds)
  {
    exists i :: 0 <= i < |ds| && ds[i].dtype == 2 && MacOf(ds[i]) == mac
  }

  ghost predicate HasName(ds: seq<Desc>, name: seq<Byte>)
    requires AllWellFormed(ds)
  {
    exists i :: 0 <= i < |ds| && ds[i].dtype == 4 && NameOf(ds[i]) == name
  }

  // ---- The walk

  /** At the head of an encoded list stand the bytes of its first descriptor. */
  lemma {:induction false} HeadBytes(b: seq<Byte>, d: Desc, ds: seq<Desc>)
    requires AllWellFormed(ds) && WellFormed(d) && b == Encode([d] + ds)
    ensures var n := FIP_BPW * Words(d);
            && 4 <= n <= |b| && n == |d.body| + 2 && b[0] == d.dtype && b[1] == Words(d)
            && b[2..n] == d.body && b[n..] == Encode(ds)
  {
    assert ([d] + ds)[1..] == ds;
    assert b == Bytes(d) + Encode(ds);
  }

  /** The walk stands at `pos` with `rest` before it. */
  ghost predicate Walking(b: seq<Byte>, pos: int, ds: seq<Desc>, done: seq<Desc>, rest: seq<Desc>) {
    && 0 <= pos <= |b| && ds == done + rest && AllWellFormed(done) && AllWellFormed(rest) && b[pos..] == Encode(rest)
  }

  /** It finds the next descriptor there, and stands behind it afterwards. */
  lemma {:induction false} WalkStep(b: seq<Byte>, pos: int, ds: seq<Desc>, done: seq<Desc>, rest: seq<Desc>)
    requires Walking(b, pos, ds, done, rest) && pos < |b|
    ensures |rest| > 0
    ensures var d := rest[0]; var n := FIP_BPW * Words(d);
            && WellFormed(d) && 4 <= n && pos + n <= |b| && b[pos] == d.dtype && b[pos + 1] == Words(d)
            && b[pos + 2..pos + n] == d.body && Walking(b, pos + n, ds, done + [d], rest[1..])
  {
    var d, c := rest[0], b[pos..];
    var n := FIP_BPW * Words(d);
    assert rest == [d] + rest[1..];
    HeadBytes(c, d, rest[1..]);
    assert c[2..n] == b[pos + 2..pos + n] && c[n..] == b[pos + n..];
    assert done + rest == (done + [d]) + rest[1..];
  }

  lemma {:induction false} WalkEnd(b: seq<Byte>, pos: int, ds: seq<Desc>, done: seq<Desc>, rest: seq<Desc>)
    requires Walking(b, pos, ds, done, rest) && |b| - pos < 2
    ensures done == ds
  {
    EncodeLong(rest);
  }

  lemma {:induction false} EncodeLong(ds: seq<Desc>)
    requires AllWellFormed(ds)
    ensures |ds| > 0 ==> |Encode(ds)| >= FIP_BPW
  {
    if |ds| > 0 { assert Encode(ds) == Bytes(ds[0]) + Encode(ds[1..]); }
  }

  /** qedf_fcoe_process_vlan_resp: `ds` is the list that the bytes encode. */
  method FindVlan(b: seq<Byte>, ghost ds: seq<Desc>) returns (vid: nat)
    requires AllWellFormed(ds) && b == Encode(ds)
    ensures vid == LastVlan(ds)
  {
    vid := 0;
    var pos, rlen := 0, |b|;
    ghost var done, rest: seq<Desc> := [], ds;
    while rlen > 0
      invariant Walking(b, pos, ds, done, rest) && pos + rlen == |b| && vid == LastVlan(done)
      decreases rlen
    {
      WalkStep(b, pos, ds, done, rest);
      ghost var d := rest[0];
      var dlen := b[pos + 1] * FIP_BPW;
      if b[pos] == DT_VLAN {
        vid := Be16(b[pos + 2], b[pos + 3]);
        assert b[pos + 2..pos + dlen][..2] == d.body[..2];
      }
      assert (done + [d])[..|done|] == done;
      done, rest := done + [d], rest[1..];
      pos, rlen := pos + dlen, rlen - dlen;
    }
    WalkEnd(b, pos, ds, done, rest);
  }

  /** One descriptor of a Clear Virtual Link. */
  datatype Seen = Seen(fcf: bool, forUs: bool, name: bool)

  ghost predicate SeenIn(v: Seen, ds: seq<Desc>, fcf: Fcf, us: Port)
    requires AllWellFormed(ds)
  {
    v.fcf == HasMac(ds, fcf.mac) && v.name == HasName(ds, fcf.switchName) && v.forUs == ForUs(ds, us)
  }

  lemma {:induction false} SeenNext(v: Seen, ds: seq<Desc>, d: Desc, fcf: Fcf, us: Port)
    requires AllWellFormed(ds) && WellFormed(d) && SeenIn(v, ds, fcf, us)
    ensures SeenIn(Seen(v.fcf || (d.dtype == DT_MAC && MacOf(d) == fcf.mac),
                        if d.dtype == DT_VN_ID then NamesUs(d, us) else v.forUs,
                        v.name || (d.dtype == DT_NAME && NameOf(d) == fcf.switchName)), ds + [d], fcf, us)
  {
    var ds' := ds + [d];
    assert ds'[..|ds|] == ds && ds'[|ds|] == d;
    assert forall i :: 0 <= i < |ds| ==> ds'[i] == ds[i];
    if HasMac(ds, fcf.mac) {
      var i :| 0 <= i < |ds| && ds[i].dtype == DT_MAC && MacOf(ds[i]) == fcf.mac;
      assert ds'[i].dtype == DT_MAC && MacOf(ds'[i]) == fcf.mac;
    }
    if HasName(ds, fcf.switchName) {
      var i :| 0 <= i < |ds| && ds[i].dtype == DT_NAME && NameOf(ds[i]) == fcf.switchName;
      assert ds'[i].dtype == DT_NAME && NameOf(ds'[i]) == fcf.switchName;
    }
  }

  /** The Clear-Virtual-Link branch of qedf_fip_recv: the link is reset exactly when some MAC and some
      name descriptor match the selected FCF and the list is for us. */
  method ClearsLink(b: seq<Byte>, fcf: Fcf, us: Port, ghost ds: seq<Desc>) returns (reset: bool)
    requires AllWellFormed(ds) && b == Encode(ds)
    ensures reset <==> HasMac(ds, fcf.mac) && HasName(ds, fcf.switchName) && ForUs(ds, us)
  {
    var v := Seen(false, true, false);
    var pos, rlen := 0, |b|;
    ghost var done, rest: seq<Desc> := [], ds;
    while rlen >= 2
      invariant Walking(b, pos, ds, done, rest) && pos + rlen == |b| && SeenIn(v, done, fcf, us)
      decreases rlen
    {
      WalkStep(b, pos, ds, done, rest);
      ghost var d := rest[0];
      var dlen := b[pos + 1] * FIP_BPW;
      SeenNext(v, done, d, fcf, us);
      v := Inspect(b[pos + 2..pos + dlen], b[pos], v, fcf, us, d);
      done, rest := done + [d], rest[1..];
      pos, rlen := pos + dlen, rlen - dlen;
    }
    WalkEnd(b, pos, ds, done, rest);
    return v.fcf && v.forUs && v.name;
  }

  /** The switch on the descriptor type. */
  method Inspect(body: seq<Byte>, dtype: Byte, v: Seen, fcf: Fcf, us: Port, ghost d: Desc) returns (v': Seen)
    requires WellFormed(d) && body == d.body && dtype == d.dtype
    ensures v' == Seen(v.fcf || (d.dtype == DT_MAC && MacOf(d) == fcf.mac),
                       if d.dtype == DT_VN_ID then NamesUs(d, us) else v.forUs,
                       v.name || (d.dtype == DT_NAME && NameOf(d) == fcf.switchName))
  {
    v' := v;
    if dtype == DT_MAC {
      if body[..6] == fcf.mac { v' := v'.(fcf := true); }
    } else if dtype == DT_NAME {
      if body[2..10] == fcf.switchName { v' := v'.(name := true); }
    } else if dtype == DT_VN_ID {
      v' := v'.(forUs := false);
      if body[10..18] == us.wwpn || body[7..10] == us.fcId || body[..6] == us.mac { v' := v'.(forUs := true); }
    }
  }

  // ---- The VLAN request

  const ETH_LEN := 14
  const FIP_LEN := 10
  const FRAME_LEN := 44

  ghost function RequestList(mac: seq<Byte>, wwnn: seq<Byte>): (ds: seq<Desc>) {
    [Desc(2, mac), Desc(4, [0, 0] + wwnn)]
  }

  /** qedf_fcoe_send_vlan_req: the frame it builds. */
  method BuildVlanRequest(mac: seq<Byte>, wwnn: seq<Byte>) returns (f: array<Byte>)
    requires |mac| == 6 && |wwnn| == 8
    ensures fresh(f) && f.Length == FRAME_LEN
    ensures f[..6] == [1, 0x10, 0x18, 1, 0, 2] && f[6..12] == mac && f[12..14] == [0x89, 0x14]
    ensures f[14..24] == [0x10, 0, 0, 4, 0, 1, 0, 5, 0, 0]   // version 1, operation VLAN, subcode request, 5 words
    ensures FIP_BPW * Be16(f[20], f[21]) == FRAME_LEN - ETH_LEN - FIP_LEN
    ensures AllWellFormed(RequestList(mac, wwnn)) && f[ETH_LEN + FIP_LEN..] == Encode(RequestList(mac, wwnn))
  {
    f := new Byte[FRAME_LEN](_ => 0);
    WriteHead(f, mac);
    ghost var head := f[..24];
    WriteDescs(f, mac, wwnn);
    assert f[..6] == head[..6] && f[6..12] == head[6..12] && f[12..14] == head[12..14] && f[14..24] == head[14..24];
    assert f[20] == f[14..24][6] && f[21] == f[14..24][7];
  }

  /** The Ethernet and the FIP header. */
  method WriteHead(f: array<Byte>, mac: seq<Byte>)
    requires |mac| == 6 && f.Length == FRAME_LEN && forall i :: 0 <= i < f.Length ==> f[i] == 0
    modifies f
    ensures f[..6] == [1, 0x10, 0x18, 1, 0, 2] && f[6..12] == mac && f[12..14] == [0x89, 0x14]
    ensures f[14..24] == [0x10, 0, 0, 4, 0, 1, 0, 5, 0, 0] && f[34] == f[35] == 0
  {
    Copy(f, 6, mac);
    Copy(f, 0, [1, 0x10, 0x18, 1, 0, 2]);
    Copy(f, 12, [0x89, 0x14, 0x10]);
    f[17], f[19], f[21] := 4, 1, 20 / FIP_BPW;
  }

  /** The descriptor part of the frame. */
  method WriteDescs(f: array<Byte>, mac: seq<Byte>, wwnn: seq<Byte>)
    requires |mac| == 6 && |wwnn| == 8 && f.Length == FRAME_LEN && f[34] == f[35] == 0
    modifies f
    ensures f[..24] == old(f[..24])
    ensures AllWellFormed(RequestList(mac, wwnn)) && f[24..] == Encode(RequestList(mac, wwnn))
  {
    Copy(f, 24, [DT_MAC, 8 / FIP_BPW] + mac);
    Copy(f, 32, [DT_NAME, 12 / FIP_BPW]);
    Copy(f, 36, wwnn);
    RequestBytes(mac, wwnn);
    assert f[24..32] == [DT_MAC, 2] + mac && f[32..36] == [DT_NAME, 3, 0, 0] && f[36..44] == wwnn;
    assert f[24..] == f[24..32] + f[32..36] + f[36..44];
  }

  method Copy(f: array<Byte>, at: nat, src: seq<Byte>)
    requires at + |src| <= f.Length
    modifies f
    ensures forall i :: 0 <= i < f.Length ==> f[i] == if at <= i < at + |src| then src[i - at] else old(f[i])
  {
    for i := 0 to |src|
      invariant forall k :: 0 <= k < f.Length ==> f[k] == if at <= k < at + i then src[k - at] else old(f[k])
    {
      f[at + i] := src[i];
    }
  }

  lemma {:induction false} RequestBytes(mac: seq<Byte>, wwnn: seq<Byte>)
    requires |mac| == 6 && |wwnn| == 8
    ensures AllWellFormed(RequestList(mac, wwnn))
    ensures Encode(RequestList(mac, wwnn)) == [DT_MAC, 2] + mac + [DT_NAME, 3, 0, 0] + wwnn
  {
    var d := Desc(DT_NAME, [0, 0] + wwnn);
    assert RequestList(mac, wwnn)[1..] == [d];
    assert Encode([d]) == Bytes(d);
  }
}
