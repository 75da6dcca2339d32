/** Offloaded sessions (qedf_main.c:1857, 1900-1981, 2014-2034): logins and logouts of many ports, with
    each port's own events one after the other. A login sleeps between the check of num_offloads and its
    increment, while it allocates the send queue and offloads the connection; a logout sleeps while it
    flushes and uploads. */
module Sessions {
  import opened Counting

  const MAX_SESSIONS := 1024

  /** QEDF_RPORT_SESSION_READY and QEDF_RPORT_UPLOADING_CONNECTION of a port; `joining` while its login has
      passed the check and is not yet counted. */
  datatype Port = Port(ready: bool, uploading: bool, joining: bool)

  function Offloaded(): (p: Port -> bool) { (q: Port) => q.ready || q.uploading }

  function Joining(): (p: Port -> bool) { (q: Port) => q.joining }

  class Adapter {
    const ports: array<Port>
    ghost const crew: nat      // at most so many logins are inside at once
    var numOffloads: int

    /** Logins inside. */
    ghost function Inside(): (n: nat)
      reads ports
    {
      Count(ports[..], Joining())
    }

    /** The counter is exact. Each login inside may still add one to it, so `crew` of them can exceed the limit
        by crew - 1. */
    ghost predicate Valid()
      reads this, ports
    {
      && numOffloads == Count(ports[..], Offloaded()) && Inside() <= crew
      && numOffloads + Inside() <= MAX_SESSIONS - 1 + crew
    }

    constructor (n: nat, ghost crew: nat)
      ensures Valid() && ports.Length == n && this.crew == crew && fresh(ports) && numOffloads == 0 && Inside() == 0
      ensures forall i :: 0 <= i < n ==> ports[i] == Port(false, false, false)
    {
      ports := new Port[n](_ => Port(false, false, false));
      this.crew := crew;
      numOffloads := 0;
      new;
      CountZero(ports[..], Offloaded());
      CountZero(ports[..], Joining());
    }

    /** One port changes. */
    method Set(i: nat, p: Port)
      requires i < ports.Length
      modifies ports
      ensures ports[..] == old(ports[..])[i := p]
      ensures Inside() == old(Inside()) + (if p.joining then 1 else 0) - if old(ports[i]).joining then 1 else 0
      ensures Count(ports[..], Offloaded()) == old(Count(ports[..], Offloaded()))
                + (if Offloaded()(p) then 1 else 0) - if Offloaded()(old(ports[i])) then 1 else 0
    {
      CountUpdate(ports[..], Joining(), i, p);
      CountUpdate(ports[..], Offloaded(), i, p);
      ports[i] := p;
      assert ports[..] == old(ports[..])[i := p];
    }

    /** RPORT_EV_READY up to its first sleep. `wanted`: an FCP target that is not the directory server. */
    method LoginBegins(i: nat, wanted: bool) returns (joins: bool)
      requires Valid() && i < ports.Length && !ports[i].uploading && !ports[i].joining && Inside() < crew
      modifies ports
      ensures Valid() && joins == (numOffloads < 1024 && !old(ports[i]).ready && wanted)
      ensures ports[..] == if joins then old(ports[..])[i := Port(false, false, true)] else old(ports[..])
      ensures Inside() == old(Inside()) + if joins then 1 else 0
    {
      if numOffloads >= MAX_SESSIONS { return false; }
      if ports[i].ready { return false; }
      if !wanted { return false; }
      Set(i, Port(false, false, true));
      return true;
    }

    /** The rest of RPORT_EV_READY. `ok`: the send queue was allocated and the connection offloaded. */
    method LoginEnds(i: nat, ok: bool)
      requires Valid() && i < ports.Length && ports[i] == Port(false, false, true)
      modifies this, ports
      ensures Valid() && numOffloads <= 1023 + crew && (crew == 1 ==> numOffloads <= 1024)
      ensures ports[..] == old(ports[..])[i := Port(ok, false, false)] && Inside() == old(Inside()) - 1
      ensures numOffloads == old(numOffloads) + if ok then 1 else 0
    {
      Set(i, Port(ok, false, false));
      if ok { numOffloads := numOffloads + 1; }
    }

    /** A logout begins; the flush and the upload come next. */
    method LogoBegins(i: nat) returns (started: bool)
      requires Valid() && i < ports.Length && !ports[i].joining
      modifies ports
      ensures Valid() && started == (old(ports[i]).ready && !old(ports[i]).uploading)
      ensures ports[..] == if started then old(ports[..])[i := Port(true, true, false)] else old(ports[..])
    {
      started := ports[i].ready && !ports[i].uploading;
      if started { Set(i, Port(true, true, false)); }
    }

    /** qedf_cleanup_fcport takes the session down. */
    method Upload(i: nat)
      requires Valid() && i < ports.Length && ports[i] == Port(true, true, false)
      modifies ports
      ensures Valid() && ports[..] == old(ports[..])[i := Port(false, true, false)]
    {
      Set(i, Port(false, true, false));
    }

    /** The logout ends. */
    method LogoEnds(i: nat)
      requires Valid() && i < ports.Length && ports[i] == Port(false, true, false)
      modifies this, ports
      ensures Valid() && ports[..] == old(ports[..])[i := Port(false, false, false)]
      ensures numOffloads == old(numOffloads) - 1
    {
      Set(i, Port(false, false, false));
      numOffloads := numOffloads - 1;
    }
  }

  /** Ports below `n` are offloaded, those from there up to `m` are joining, the rest are idle. */
  ghost predicate Filled(ports: seq<Port>, n: nat, m: nat) {
    forall i :: 0 <= i < |ports| ==> ports[i] == Port(i < n, false, n <= i < m)
  }

  /** The bound is reached: 1023 ports log in one after the other, then `k` more at the same time. */
  method Crowd(k: nat) returns (a: Adapter)
    requires k > 0
    ensures fresh(a) && a.Valid() && a.crew == k && a.numOffloads == 1023 + k
  {
    var full := MAX_SESSIONS - 1;
    a := new Adapter(full + k, k);
    for n := 0 to full
      invariant a.Valid() && a.Inside() == 0 && a.numOffloads == n && Filled(a.ports[..], n, n)
    {
      var _ := a.LoginBegins(n, true);
      a.LoginEnds(n, true);
    }
    for m := full to full + k
      invariant a.Valid() && a.Inside() == m - full && a.numOffloads == full && Filled(a.ports[..], full, m)
    {
      var _ := a.LoginBegins(m, true);
    }
    for n := full to full + k
      invariant a.Valid() && a.numOffloads == n && Filled(a.ports[..], n, full + k)
    {
      a.LoginEnds(n, true);
    }
  }
}
