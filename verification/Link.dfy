/** Link events and DCBX events must meet before discovery is queued (qedf_main.c:347-412, 800-997),
    in the mode that does not enforce lossless Ethernet. */
module Link {
  const DEFAULT_PRIO := 3
  const NO_PRIO := 255

  /** Module parameters: do not wait for DCBX, the link-down timeout, the priority override. */
  datatype Params = Params(noWait: bool, downTmo: int, defaultPrio: int)

  /** What a DCBX event reports; `fcoe[i]` tells whether entry i of the application table is for FCoE. */
  datatype Dcbx = Dcbx(enabled: bool, valid: bool, appValid: bool, fcoe: seq<bool>, prio: int)

  datatype Work = Discovery | Recovery

  /** `updatePending`: link_update is scheduled. `queued` is history: the discovery work queued since the
      link last went down. */
  datatype State = State(up: bool, dcbxDone: bool, tmoValid: bool, updatePending: bool, prio: int, queued: seq<Work>)

  datatype Event = LinkUp | LinkDown | DcbxChanged(info: Dcbx) | UpdateRuns

  predicate Usable(g: Dcbx) { g.enabled && g.valid }

  /** The module parameters after qedf_init has checked them (qedf_main.c:4954-4959). */
  function Checked(p: Params): (p': Params)
    ensures p'.defaultPrio <= 7 && p'.noWait == p.noWait && p'.downTmo == p.downTmo
    ensures p.defaultPrio <= 7 ==> p' == p
    ensures p.defaultPrio > 7 ==> p'.defaultPrio == 3
  {
    if p.defaultPrio > 7 then p.(defaultPrio := DEFAULT_PRIO) else p
  }

  function Probed(p: Params): (s: State) {
    State(false, false, false, false, if p.defaultPrio > -1 then p.defaultPrio else DEFAULT_PRIO, [])
  }

  function AppPrio(g: Dcbx): (prio: int)
    ensures prio == NO_PRIO || 0 <= prio <= 7
  {
    if Usable(g) && g.appValid && (exists i :: 0 <= i < |g.fcoe| && g.fcoe[i]) && 0 <= g.prio <= 7 then g.prio
    else NO_PRIO
  }

  function PrioFor(p: Params, g: Dcbx): (prio: int)
    ensures 0 <= prio <= 7
  {
    if p.defaultPrio > 7 then DEFAULT_PRIO
    else if p.defaultPrio > -1 then p.defaultPrio
    else if AppPrio(g) == NO_PRIO then DEFAULT_PRIO
    else AppPrio(g)
  }

  /** Queues recovery while the link-down timeout is running, full discovery otherwise. */
  function Discover(s: State): (s': State) {
    s.(queued := s.queued + [if s.tmoValid then Recovery else Discovery], tmoValid := false,
       updatePending := s.updatePending || !s.tmoValid)
  }

  function Next(p: Params, s: State, ev: Event): (s': State) {
    match ev
    case LinkUp =>
      if s.up then s
      else
        var s1 := s.(updatePending := false, up := true);
        if s.dcbxDone || p.noWait then Discover(s1) else s1
    case LinkDown =>
      s.(up := false, dcbxDone := false, tmoValid := s.tmoValid || p.downTmo > 0, updatePending := true, queued := [])
    case DcbxChanged(g) =>
      if s.dcbxDone || !Usable(g) then s
      else
        var s1 := s.(prio := PrioFor(p, g), dcbxDone := true);
        if s.up && !p.noWait then Discover(s1) else s1
    case UpdateRuns =>
      if !s.updatePending then s
      else s.(updatePending := false, tmoValid := s.tmoValid && s.up)
  }

  /** The state after a history of events. */
  function After(p: Params, h: seq<Event>): (s: State) {
    if |h| == 0 then Probed(p) else Next(p, After(p, h[..|h| - 1]), h[|h| - 1])
  }

  // ---- The same, said of the history itself

  /** The events since the link last went down. */
  function SinceDown(h: seq<Event>): (e: seq<Event>) {
    if |h| == 0 || h[|h| - 1].LinkDown? then [] else SinceDown(h[..|h| - 1]) + [h[|h| - 1]]
  }

  /** The events before the link came up. */
  function BeforeUp(e: seq<Event>): (f: seq<Event>) {
    if |e| == 0 then []
    else if LinkUp in e[..|e| - 1] then BeforeUp(e[..|e| - 1])
    else if e[|e| - 1].LinkUp? then e[..|e| - 1]
    else e
  }

  predicate IsUp(h: seq<Event>) { LinkUp in SinceDown(h) }

  predicate DcbxDone(h: seq<Event>) {
    var e := SinceDown(h); exists i :: 0 <= i < |e| && e[i].DcbxChanged? && Usable(e[i].info)
  }

  /** The link-down timeout is in use and has not run since the link went down. */
  predicate TimeoutRunning(p: Params, h: seq<Event>) {
    p.downTmo > 0 && LinkDown in h && UpdateRuns !in BeforeUp(SinceDown(h))
  }

  function Expected(p: Params, h: seq<Event>): (w: seq<Work>) {
    if IsUp(h) && (p.noWait || DcbxDone(h)) then [if TimeoutRunning(p, h) then Recovery else Discovery] else []
  }

  lemma {:induction false} Appended(h: seq<Event>, ev: Event)
    ensures SinceDown(h + [ev]) == if ev.LinkDown? then [] else SinceDown(h) + [ev]
  {
    assert (h + [ev])[..|h|] == h;
  }

  lemma {:induction false} DoneAppended(h: seq<Event>, ev: Event)
    ensures DcbxDone(h + [ev]) <==> !ev.LinkDown? && (DcbxDone(h) || (ev.DcbxChanged? && Usable(ev.info)))
  {
    Appended(h, ev);
    var e, e' := SinceDown(h), SinceDown(h + [ev]);
    if !ev.LinkDown? {
      assert e' == e + [ev];
      if DcbxDone(h) {
        var i :| 0 <= i < |e| && e[i].DcbxChanged? && Usable(e[i].info);
        assert e'[i] == e[i];
      } else if ev.DcbxChanged? && Usable(ev.info) {
        assert e'[|e|] == ev;
      }
    }
  }

  lemma {:induction false} BeforeUpAppended(e: seq<Event>, ev: Event)
    ensures BeforeUp(e + [ev]) == if LinkUp in e then BeforeUp(e) else if ev.LinkUp? then e else e + [ev]
  {
    assert (e + [ev])[..|e|] == e;
  }

  lemma {:induction false} BeforeUpAll(e: seq<Event>)
    requires LinkUp !in e
    ensures BeforeUp(e) == e
  {}

  /** The events since discovery was queued. */
  function SinceMet(p: Params, h: seq<Event>): (e: seq<Event>) {
    if |h| == 0 || Expected(p, h[..|h| - 1]) == [] || Expected(p, h) == [] then []
    else SinceMet(p, h[..|h| - 1]) + [h[|h| - 1]]
  }

  /** link_update waits to run: for the link-down until the link comes up again, then as the full discovery. */
  predicate Scheduled(p: Params, h: seq<Event>) {
    if !IsUp(h) then LinkDown in h && UpdateRuns !in SinceDown(h)
    else Expected(p, h) == [Discovery] && UpdateRuns !in SinceMet(p, h)
  }

  lemma {:induction false} SinceMetAppended(p: Params, h: seq<Event>, ev: Event)
    ensures SinceMet(p, h + [ev]) ==
            if Expected(p, h) == [] || Expected(p, h + [ev]) == [] then [] else SinceMet(p, h) + [ev]
  {
    assert (h + [ev])[..|h|] == h;
  }

  /** What the reachable states have in common. */
  ghost predicate Meets(p: Params, s: State, h: seq<Event>) {
    && s.up == IsUp(h) && s.dcbxDone == DcbxDone(h) && s.queued == Expected(p, h)
    && s.tmoValid == (TimeoutRunning(p, h) && s.queued == []) && s.updatePending == Scheduled(p, h)
  }

  lemma {:induction false} MeetsNext(p: Params, h: seq<Event>, ev: Event)
    requires Meets(p, After(p, h), h)
    ensures Meets(p, Next(p, After(p, h), ev), h + [ev])
  {
    Appended(h, ev);
    DoneAppended(h, ev);
    BeforeUpAppended(SinceDown(h), ev);
    SinceMetAppended(p, h, ev);
    if !IsUp(h) { BeforeUpAll(SinceDown(h)); }
  }

  lemma {:induction false} AlwaysMeets(p: Params, h: seq<Event>)
    ensures Meets(p, After(p, h), h)
  {
    if |h| > 0 {
      AlwaysMeets(p, h[..|h| - 1]);
      MeetsNext(p, h[..|h| - 1], h[|h| - 1]);
      assert h[..|h| - 1] + [h[|h| - 1]] == h;
    }
  }

  /** In every interleaving, discovery is queued at most once between two link-downs; it has been queued
      exactly when the link is up and DCBX is done, or need not be waited for; and it is the recovery
      exactly when the link-down timeout was still running. */
  lemma {:induction false} DiscoveryMeets(p: Params, h: seq<Event>)
    ensures After(p, h).queued == Expected(p, h) && |After(p, h).queued| <= 1
    ensures |After(p, h).queued| == 1 <==> IsUp(h) && (p.noWait || DcbxDone(h))
    ensures After(p, h).updatePending <==> Scheduled(p, h)
  {
    AlwaysMeets(p, h);
  }

  /** Event `i` of the history completes DCBX. */
  ghost predicate Completes(h: seq<Event>, i: int)
    requires 0 <= i < |h|
  {
    h[i].DcbxChanged? && h[i].info.enabled && h[i].info.valid && !DcbxDone(h[..i])
  }

  /** The last event to complete DCBX, if there was one. */
  ghost function LastCompleting(h: seq<Event>): (i: int)
    ensures -1 <= i < |h| && (i >= 0 ==> Completes(h, i))
    ensures forall j :: i < j < |h| ==> !Completes(h, j)
  {
    if |h| == 0 then -1
    else if Completes(h, |h| - 1) then |h| - 1
    else CompletesEarlier(h); LastCompleting(h[..|h| - 1])
  }

  lemma {:induction false} CompletesEarlier(h: seq<Event>)
    requires |h| > 0
    ensures forall j :: 0 <= j < |h| - 1 ==> (Completes(h[..|h| - 1], j) <==> Completes(h, j))
  {
    forall j | 0 <= j < |h| - 1 ensures Completes(h[..|h| - 1], j) <==> Completes(h, j) {
      assert h[..|h| - 1][..j] == h[..j];
    }
  }

  /** The priority, from the history: the parameter if that is in 0..7; otherwise what the last event to complete
      DCBX reported for FCoE, if its table has an entry for FCoE and the value is in 0..7; otherwise 3. */
  lemma {:induction false} PriorityMeets(p: Params, h: seq<Event>)
    ensures var q, s, i := Checked(p), After(Checked(p), h), LastCompleting(h);
            && (p.defaultPrio > 7 ==> s.prio == 3) && (0 <= p.defaultPrio <= 7 ==> s.prio == p.defaultPrio)
            && (p.defaultPrio < 0 && i < 0 ==> s.prio == 3)
            && (p.defaultPrio < 0 && i >= 0 ==>
                  var g := h[i].info;
                  s.prio == if g.appValid && true in g.fcoe && 0 <= g.prio <= 7 then g.prio else 3)
  {
    if |h| > 0 {
      var h0 := h[..|h| - 1];
      PriorityMeets(p, h0);
      AlwaysMeets(Checked(p), h0);
    }
  }

  /** The priority stays in 0..7, whatever the parameters and the events. */
  lemma {:induction false} PrioInRange(p: Params, h: seq<Event>)
    ensures 0 <= After(Checked(p), h).prio <= 7
  {
    if |h| > 0 { PrioInRange(p, h[..|h| - 1]); }
  }

  // ---- The driver's fields

  class Adapter {
    const p: Params
    var up: bool
    var dcbxDone: bool
    var tmoValid: bool
    var updatePending: bool
    var prio: int
    ghost var queued: seq<Work>

    ghost function V(): State
      reads this
    {
      State(up, dcbxDone, tmoValid, updatePending, prio, queued)
    }

    constructor (p: Params)
      ensures this.p == p && V() == After(p, [])
    {
      this.p := p;
      up, dcbxDone, tmoValid, updatePending, queued := false, false, false, false, [];
      prio := if p.defaultPrio > -1 then p.defaultPrio else DEFAULT_PRIO;
    }

    method QueueDiscovery()
      modifies this
      ensures V() == Discover(old(V()))
    {
      if tmoValid {
        queued := queued + [Recovery];
      } else {
        queued := queued + [Discovery];
        updatePending := true;
      }
      tmoValid := false;
    }

    /** qedf_link_update. */
    method LinkUpdate(linkUp: bool)
      modifies this
      ensures V() == Next(p, old(V()), if linkUp then LinkUp else LinkDown)
    {
      if linkUp {
        if up { return; }
        updatePending := false;
        up := true;
        if dcbxDone || p.noWait { QueueDiscovery(); }
      } else {
        up := false;
        dcbxDone := false;
        if p.downTmo > 0 { tmoValid := true; }
        updatePending := true;
        queued := [];
      }
    }

    /** validate_fcoe_app_tlv. */
    method ValidateAppTlv(g: Dcbx) returns (prio: int)
      ensures prio == AppPrio(g)
    {
      prio := NO_PRIO;
      if Usable(g) && g.appValid {
        var i := 0;
        while i < |g.fcoe|
          invariant 0 <= i <= |g.fcoe| && prio == NO_PRIO
          invariant 0 <= g.prio <= 7 ==> forall k :: 0 <= k < i ==> !g.fcoe[k]
        {
          if g.fcoe[i] && 0 <= g.prio <= 7 { return g.prio; }
          i := i + 1;
        }
      }
    }

    /** qedf_dcbx_handler. */
    method DcbxHandler(g: Dcbx)
      modifies this
      ensures V() == Next(p, old(V()), DcbxChanged(g))
    {
      var appPrio := ValidateAppTlv(g);
      if dcbxDone { return; }
      if !g.enabled || !g.valid { return; }
      if p.defaultPrio > -1 {
        prio := if p.defaultPrio > 7 then DEFAULT_PRIO else p.defaultPrio;
      } else if appPrio == NO_PRIO {
        prio := DEFAULT_PRIO;
      } else {
        prio := appPrio;
      }
      dcbxDone := true;
      if up && !p.noWait { QueueDiscovery(); }
    }

    /** qedf_handle_link_update, as far as the meeting of the two event streams goes. */
    method HandleLinkUpdate()
      modifies this
      ensures V() == Next(p, old(V()), UpdateRuns)
    {
      if !updatePending { return; }
      updatePending := false;
      if !up { tmoValid := false; }
    }
  }
}
