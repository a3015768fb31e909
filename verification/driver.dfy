/**
 * Reconciliation: handlePort and handleService drive one handler (open or close)
 * over every claim of a Service and collect the errors without stopping;
 * add, delete and update Service events are built from them. Run and UpdateRun
 * say what a whole batch does, given what the host answers to each call.
 */
module Reconciler {
  import opened PortClaimTypes
  import opened ClaimExtractor
  import opened PortLedger

  /** The handler handleService was given, applied to one claim. */
  function HandlerStep(h: Handler, m: Ledger, addrs: set<string>, lib: Validators, c: Claim, svc: Service, reply: HostReply): Step
  {
    match h
    case Open => OpenStep(m, addrs, lib, c, svc, reply)
    case Close => CloseStep(m, addrs, lib, c, svc, reply)
  }

  /** handlePort: a port that fails validation is an error and the handler is not called. */
  function HandlePortStep(h: Handler, m: Ledger, addrs: set<string>, lib: Validators, c: Claim, svc: Service, reply: HostReply): (r: Step)
    ensures !lib.portOk(c.protocol, c.port) ==> r.err.Some? && r.ledger == m && !r.emitted
    ensures lib.portOk(c.protocol, c.port) ==> r == HandlerStep(h, m, addrs, lib, c, svc, reply)
    ensures WellFormed(m, addrs, lib) ==> WellFormed(r.ledger, addrs, lib)
  {
    if !lib.portOk(c.protocol, c.port) then Step(Some(InvalidPort(svc.name, c.port, c.protocol)), m, false)
    else HandlerStep(h, m, addrs, lib, c, svc, reply)
  }

  /** Whether handlePort, for this handler and claim, reaches the host (the opener or Close()). */
  predicate ReachesHost(h: Handler, m: Ledger, addrs: set<string>, lib: Validators, c: Claim)
  {
    lib.portOk(c.protocol, c.port) &&
    match h
    case Open => OpenReachesHost(m, addrs, lib, c)
    case Close => CloseReachesHost(m, addrs, lib, c)
  }

  /** The result of a batch: the collected errors in call order, the ledger afterwards, the
      number of events emitted and the number of host calls made. */
  datatype Batch = Batch(errs: seq<Error>, ledger: Ledger, events: nat, hostCalls: nat)

  /** handlePort over the claims in order, each claim answered by the matching host reply;
      a failure is appended to the errors and never stops the batch. */
  function Run(h: Handler, m: Ledger, addrs: set<string>, lib: Validators, svc: Service,
               cs: seq<Claim>, replies: seq<HostReply>): (b: Batch)
    requires |replies| == |cs|
    ensures |b.errs| <= |cs|
    decreases |cs|
  {
    if cs == [] then Batch([], m, 0, 0)
    else
      var n := |cs| - 1;
      var prev := Run(h, m, addrs, lib, svc, cs[..n], replies[..n]);
      var s := HandlePortStep(h, prev.ledger, addrs, lib, cs[n], svc, replies[n]);
      Batch(prev.errs + (if s.err.Some? then [s.err.value] else []), s.ledger, prev.events + (if s.emitted then 1 else 0),
            prev.hostCalls + (if ReachesHost(h, prev.ledger, addrs, lib, cs[n]) then 1 else 0))
  }

  /** The handler invocations a batch makes: one per claim that passes port validation. */
  function Invoked(h: Handler, lib: Validators, cs: seq<Claim>): (calls: seq<Call>)
    ensures |calls| <= |cs|
  {
    if cs == [] then []
    else
      var c := cs[|cs| - 1];
      Invoked(h, lib, cs[..|cs| - 1]) + (if lib.portOk(c.protocol, c.port) then [Call(h, c)] else [])
  }

  /** The update fast path compares ExternalIPs and Ports only. */
  predicate SameServicePorts(oldSvc: Service, newSvc: Service)
  {
    oldSvc.externalIPs == newSvc.externalIPs && oldSvc.ports == newSvc.ports
  }

  /** updateServicePortClaim: nothing when the fast path applies, otherwise a full delete of
      the old Service followed by a full add of the new one. */
  function UpdateRun(m: Ledger, addrs: set<string>, lib: Validators, oldSvc: Service, newSvc: Service,
                     closeReplies: seq<HostReply>, openReplies: seq<HostReply>): (b: Batch)
    requires !SameServicePorts(oldSvc, newSvc) ==>
      |closeReplies| == |Claims(lib, oldSvc)| && |openReplies| == |Claims(lib, newSvc)|
  {
    if SameServicePorts(oldSvc, newSvc) then Batch([], m, 0, 0)
    else
      var deleted := Run(Close, m, addrs, lib, oldSvc, Claims(lib, oldSvc), closeReplies);
      var added := Run(Open, deleted.ledger, addrs, lib, newSvc, Claims(lib, newSvc), openReplies);
      Batch(deleted.errs + added.errs, added.ledger, deleted.events + added.events, deleted.hostCalls + added.hostCalls)
  }

  /** The keys a batch over these claims can hold: claims that pass port validation and
      that the ledger can hold. */
  function HeldKeys(addrs: set<string>, lib: Validators, cs: seq<Claim>): set<LocalPort>
  {
    set c | c in cs && lib.portOk(c.protocol, c.port) && Holdable(addrs, lib, c) :: Key(c)
  }

  predicate AllGranted(replies: seq<HostReply>)
  {
    forall i :: 0 <= i < |replies| ==> replies[i].Granted?
  }

  // ---------------------------------------------------------------- unfolding helpers

  lemma RunSnoc(h: Handler, m: Ledger, addrs: set<string>, lib: Validators, svc: Service,
                cs: seq<Claim>, replies: seq<HostReply>, c: Claim, reply: HostReply)
    requires |replies| == |cs|
    ensures var prev := Run(h, m, addrs, lib, svc, cs, replies);
      var s := HandlePortStep(h, prev.ledger, addrs, lib, c, svc, reply);
      Run(h, m, addrs, lib, svc, cs + [c], replies + [reply]) ==
        Batch(prev.errs + (if s.err.Some? then [s.err.value] else []), s.ledger, prev.events + (if s.emitted then 1 else 0),
              prev.hostCalls + (if ReachesHost(h, prev.ledger, addrs, lib, c) then 1 else 0))
  {
    assert (cs + [c])[..|cs|] == cs;
    assert (replies + [reply])[..|replies|] == replies;
  }

  lemma InvokedSnoc(h: Handler, lib: Validators, cs: seq<Claim>, c: Claim)
    ensures Invoked(h, lib, cs + [c]) == Invoked(h, lib, cs) + (if lib.portOk(c.protocol, c.port) then [Call(h, c)] else [])
  {
    assert (cs + [c])[..|cs|] == cs;
  }

  lemma HeldKeysSnoc(addrs: set<string>, lib: Validators, cs: seq<Claim>)
    requires cs != []
    ensures var c := cs[|cs| - 1];
      HeldKeys(addrs, lib, cs) ==
        HeldKeys(addrs, lib, cs[..|cs| - 1]) + (if lib.portOk(c.protocol, c.port) && Holdable(addrs, lib, c) then {Key(c)} else {})
  {
    assert cs == cs[..|cs| - 1] + [cs[|cs| - 1]];
  }

  // ---------------------------------------------------------------- batch properties

  /** The handler is invoked for exactly the claims that pass port validation. */
  lemma {:induction false} InvokedMembers(h: Handler, lib: Validators, cs: seq<Claim>, call: Call)
    ensures call in Invoked(h, lib, cs) <==>
      call.handler == h && call.claim in cs && lib.portOk(call.claim.protocol, call.claim.port)
  {
    if cs != [] {
      var init := cs[..|cs| - 1];
      InvokedMembers(h, lib, init, call);
      assert cs == init + [cs[|cs| - 1]];
    }
  }

  /** A Service with neither NodePorts nor external IPs makes no handler call and returns
      no error, whatever the handler. */
  lemma UnexposedServiceIsNoop(h: Handler, m: Ledger, addrs: set<string>, lib: Validators, svc: Service)
    requires !lib.hasNodePort(svc) && |svc.externalIPs| == 0
    ensures Claims(lib, svc) == []
    ensures Invoked(h, lib, Claims(lib, svc)) == []
    ensures Run(h, m, addrs, lib, svc, Claims(lib, svc), []) == Batch([], m, 0, 0)
  {
  }

  /** An open batch never removes or replaces an entry, and only adds keys the batch can hold. */
  lemma {:induction false} RunOpenOnlyAdds(m: Ledger, addrs: set<string>, lib: Validators, svc: Service,
                                           cs: seq<Claim>, replies: seq<HostReply>)
    requires |replies| == |cs|
    ensures var r := Run(Open, m, addrs, lib, svc, cs, replies).ledger;
      (forall k :: k in m ==> k in r && r[k] == m[k]) &&
      (forall k :: k in r ==> k in m || k in HeldKeys(addrs, lib, cs))
    decreases |cs|
  {
    if cs != [] {
      var n := |cs| - 1;
      RunOpenOnlyAdds(m, addrs, lib, svc, cs[..n], replies[..n]);
      HeldKeysSnoc(addrs, lib, cs);
    }
  }

  /** An open batch whose every host open succeeds holds afterwards exactly the keys it held
      before and the keys of the claims it can hold. */
  lemma {:induction false} RunOpenGrantedHoldsAll(m: Ledger, addrs: set<string>, lib: Validators, svc: Service,
                                                  cs: seq<Claim>, replies: seq<HostReply>)
    requires |replies| == |cs| && AllGranted(replies)
    ensures Run(Open, m, addrs, lib, svc, cs, replies).ledger.Keys == m.Keys + HeldKeys(addrs, lib, cs)
    decreases |cs|
  {
    if cs == [] {
      assert HeldKeys(addrs, lib, cs) == {};
    } else {
      var n := |cs| - 1;
      RunOpenGrantedHoldsAll(m, addrs, lib, svc, cs[..n], replies[..n]);
      HeldKeysSnoc(addrs, lib, cs);
      assert replies[n].Granted?;
    }
  }

  /** A close batch whose every host close succeeds removes exactly the keys it can hold. */
  lemma {:induction false} RunCloseGrantedRemovesHeld(m: Ledger, addrs: set<string>, lib: Validators, svc: Service,
                                                      cs: seq<Claim>, replies: seq<HostReply>)
    requires |replies| == |cs| && AllGranted(replies)
    ensures Run(Close, m, addrs, lib, svc, cs, replies).ledger == m - HeldKeys(addrs, lib, cs)
    decreases |cs|
  {
    if cs == [] {
      assert HeldKeys(addrs, lib, cs) == {};
    } else {
      var n := |cs| - 1;
      RunCloseGrantedRemovesHeld(m, addrs, lib, svc, cs[..n], replies[..n]);
      HeldKeysSnoc(addrs, lib, cs);
      assert replies[n].Granted?;
    }
  }

  /** Adding a Service and then deleting it, with every host close succeeding, restores the
      ledger, provided it held none of the Service's keys before; whatever the host
      answered to the opens. */
  lemma AddThenDeleteRestores(m: Ledger, addrs: set<string>, lib: Validators, svc: Service,
                              openReplies: seq<HostReply>, closeReplies: seq<HostReply>)
    requires |openReplies| == |Claims(lib, svc)| == |closeReplies| && AllGranted(closeReplies)
    requires forall k :: k in HeldKeys(addrs, lib, Claims(lib, svc)) ==> k !in m
    ensures var added := Run(Open, m, addrs, lib, svc, Claims(lib, svc), openReplies).ledger;
      Run(Close, added, addrs, lib, svc, Claims(lib, svc), closeReplies).ledger == m
  {
    var cs := Claims(lib, svc);
    var held := HeldKeys(addrs, lib, cs);
    var added := Run(Open, m, addrs, lib, svc, cs, openReplies).ledger;
    RunOpenOnlyAdds(m, addrs, lib, svc, cs, openReplies);
    RunCloseGrantedRemovesHeld(added, addrs, lib, svc, cs, closeReplies);
    assert (added - held).Keys == m.Keys;
  }

  /** With structurally equal ExternalIPs and Ports an update does nothing at all. */
  lemma UpdateFastPath(m: Ledger, addrs: set<string>, lib: Validators, oldSvc: Service, newSvc: Service,
                       closeReplies: seq<HostReply>, openReplies: seq<HostReply>)
    requires SameServicePorts(oldSvc, newSvc)
    ensures UpdateRun(m, addrs, lib, oldSvc, newSvc, closeReplies, openReplies) == Batch([], m, 0, 0)
  {
  }

  /** Otherwise every old claim is released before any new one is opened: with every host
      close succeeding, the opens start from the ledger without the old Service's keys. */
  lemma UpdateClosesOldBeforeOpening(m: Ledger, addrs: set<string>, lib: Validators, oldSvc: Service, newSvc: Service,
                                     closeReplies: seq<HostReply>, openReplies: seq<HostReply>)
    requires |closeReplies| == |Claims(lib, oldSvc)| && |openReplies| == |Claims(lib, newSvc)|
    requires !SameServicePorts(oldSvc, newSvc) && AllGranted(closeReplies)
    ensures var b := UpdateRun(m, addrs, lib, oldSvc, newSvc, closeReplies, openReplies);
      var cleared := m - HeldKeys(addrs, lib, Claims(lib, oldSvc));
      var added := Run(Open, cleared, addrs, lib, newSvc, Claims(lib, newSvc), openReplies);
      b.ledger == added.ledger &&
      b.errs == Run(Close, m, addrs, lib, oldSvc, Claims(lib, oldSvc), closeReplies).errs + added.errs
  {
    RunCloseGrantedRemovesHeld(m, addrs, lib, oldSvc, Claims(lib, oldSvc), closeReplies);
  }

  // ---------------------------------------------------------------- the driver

  /** handlePort: validate the port, then hand the claim to the handler. */
  method HandlePort(w: PortClaimWatcher, h: Handler, c: Claim, svc: Service) returns (err: Option<Error>, ghost reply: HostReply)
    requires w.Valid()
    modifies w
    ensures w.Valid()
    ensures var s := HandlePortStep(h, old(w.portsMap), w.localAddrSet, w.lib, c, svc, reply);
      err == s.err && w.portsMap == s.ledger && w.events == old(w.events) + (if s.emitted then 1 else 0)
    ensures w.calls == old(w.calls) + (if w.lib.portOk(c.protocol, c.port) then [Call(h, c)] else [])
    ensures w.hostCalls == old(w.hostCalls) + (if ReachesHost(h, old(w.portsMap), w.localAddrSet, w.lib, c) then 1 else 0)
  {
    reply := Refused;
    if !w.lib.portOk(c.protocol, c.port) {
      return Some(InvalidPort(svc.name, c.port, c.protocol)), reply;
    }
    match h {
      case Open => err, reply := w.Open(c, svc);
      case Close => err, reply := w.Close(c, svc);
    }
  }

  /** The watcher's state when a handleService batch starts. */
  datatype Origin = Origin(ledger: Ledger, events: nat, calls: seq<Call>, hostCalls: nat)

  /** Loop bookkeeping of handleService: after handling `done` with these host replies from
      origin `o`, the collected errors, the ledger, the new events, the new handler calls and
      the new host calls are those of Run and Invoked. */
  ghost predicate Accounts(w: PortClaimWatcher, h: Handler, svc: Service, o: Origin,
                           done: seq<Claim>, replies: seq<HostReply>, errs: seq<Error>)
    reads w
  {
    w.Valid() && |replies| == |done| &&
    var b := Run(h, o.ledger, w.localAddrSet, w.lib, svc, done, replies);
    errs == b.errs && w.portsMap == b.ledger && w.events == o.events + b.events &&
    w.hostCalls == o.hostCalls + b.hostCalls && w.calls == o.calls + Invoked(h, w.lib, done)
  }

  /** The body of handleService's loops: handlePort, and append its error if there is one. */
  method HandleAndCollect(w: PortClaimWatcher, h: Handler, svc: Service, c: Claim, errs: seq<Error>,
                          ghost o: Origin, ghost done: seq<Claim>, ghost replies: seq<HostReply>)
    returns (errsOut: seq<Error>, ghost repliesOut: seq<HostReply>)
    requires Accounts(w, h, svc, o, done, replies, errs)
    modifies w
    ensures Accounts(w, h, svc, o, done + [c], repliesOut, errsOut)
  {
    var err, reply := HandlePort(w, h, c, svc);
    errsOut := errs;
    if err.Some? {
      errsOut := errs + [err.value];
    }
    repliesOut := replies + [reply];
    RunSnoc(h, o.ledger, w.localAddrSet, w.lib, svc, done, replies, c, reply);
    InvokedSnoc(h, w.lib, done, c);
    ConcatAssoc(o.calls, Invoked(h, w.lib, done), if w.lib.portOk(c.protocol, c.port) then [Call(h, c)] else []);
  }

  /** One iteration of handleService's outer loop: the NodePort claim when NodePorts apply,
      then one claim per external IP, each handled and its error collected. */
  method HandleServicePort(w: PortClaimWatcher, h: Handler, svc: Service, nodePort: bool, svcPort: ServicePort,
                           errs: seq<Error>, ghost o: Origin, ghost done: seq<Claim>, ghost replies: seq<HostReply>)
    returns (errsOut: seq<Error>, ghost repliesOut: seq<HostReply>)
    requires Accounts(w, h, svc, o, done, replies, errs)
    modifies w
    ensures Accounts(w, h, svc, o, done + ClaimsOfPort(svc, nodePort, svcPort), repliesOut, errsOut)
  {
    errsOut, repliesOut := errs, replies;
    ghost var handled := done;
    ghost var nodePortPart := if nodePort then [NodePortClaim(svc, svcPort)] else [];
    if nodePort {
      var c := Claim(Description(svcPort.name, svc, true), "", svcPort.nodePort, svcPort.protocol);
      errsOut, repliesOut := HandleAndCollect(w, h, svc, c, errsOut, o, handled, repliesOut);
      handled := handled + [c];
    }
    for j := 0 to |svc.externalIPs|
      invariant handled == done + nodePortPart + ExternalIPClaims(svc, svcPort, svc.externalIPs[..j])
      invariant Accounts(w, h, svc, o, handled, repliesOut, errsOut)
    {
      var externalIP := svc.externalIPs[j];
      var c := Claim(Description(svcPort.name, svc, false), externalIP, svcPort.port, svcPort.protocol);
      errsOut, repliesOut := HandleAndCollect(w, h, svc, c, errsOut, o, handled, repliesOut);
      handled := handled + [c];
      assert svc.externalIPs[..j + 1][..j] == svc.externalIPs[..j];
    }
    assert svc.externalIPs[..|svc.externalIPs|] == svc.externalIPs;
    ConcatAssoc(done, nodePortPart, ExternalIPClaims(svc, svcPort, svc.externalIPs));
  }

  /** handleService's outer loop over the declared ports, in order. */
  method HandlePorts(w: PortClaimWatcher, h: Handler, svc: Service, nodePort: bool)
    returns (errs: seq<Error>, ghost replies: seq<HostReply>)
    requires w.Valid()
    modifies w
    ensures Accounts(w, h, svc, Origin(old(w.portsMap), old(w.events), old(w.calls), old(w.hostCalls)), PortClaims(svc, nodePort, svc.ports), replies, errs)
  {
    errs, replies := [], [];
    ghost var o := Origin(w.portsMap, w.events, w.calls, w.hostCalls);
    for i := 0 to |svc.ports|
      invariant Accounts(w, h, svc, o, PortClaims(svc, nodePort, svc.ports[..i]), replies, errs)
    {
      PortClaimsSnoc(svc, nodePort, svc.ports, i);
      errs, replies := HandleServicePort(w, h, svc, nodePort, svc.ports[i], errs, o,
                                         PortClaims(svc, nodePort, svc.ports[..i]), replies);
    }
    assert svc.ports[..|svc.ports|] == svc.ports;
  }

  /** handleService: nothing when the Service has neither NodePorts nor external IPs;
      otherwise every claim, in order, with every error collected and none stopping the loop. */
  method HandleService(w: PortClaimWatcher, svc: Service, h: Handler) returns (errs: seq<Error>, ghost replies: seq<HostReply>)
    requires w.Valid()
    modifies w
    ensures w.Valid()
    ensures |replies| == |Claims(w.lib, svc)|
    ensures var b := Run(h, old(w.portsMap), w.localAddrSet, w.lib, svc, Claims(w.lib, svc), replies);
      errs == b.errs && w.portsMap == b.ledger && w.events == old(w.events) + b.events &&
      w.hostCalls == old(w.hostCalls) + b.hostCalls
    ensures w.calls == old(w.calls) + Invoked(h, w.lib, Claims(w.lib, svc))
  {
    if !w.lib.hasNodePort(svc) && |svc.externalIPs| == 0 {
      return [], [];
    }
    errs, replies := HandlePorts(w, h, svc, w.lib.hasNodePort(svc));
  }

  /** addServicePortClaim: open every claim of the Service. */
  method AddServicePortClaim(w: PortClaimWatcher, svc: Service) returns (errs: seq<Error>, ghost replies: seq<HostReply>)
    requires w.Valid()
    modifies w
    ensures w.Valid()
    ensures |replies| == |Claims(w.lib, svc)|
    ensures var b := Run(Open, old(w.portsMap), w.localAddrSet, w.lib, svc, Claims(w.lib, svc), replies);
      errs == b.errs && w.portsMap == b.ledger && w.events == old(w.events) + b.events &&
      w.hostCalls == old(w.hostCalls) + b.hostCalls
    ensures w.calls == old(w.calls) + Invoked(Open, w.lib, Claims(w.lib, svc))
  {
    errs, replies := HandleService(w, svc, Open);
  }

  /** deleteServicePortClaim: close every claim of the Service. */
  method DeleteServicePortClaim(w: PortClaimWatcher, svc: Service) returns (errs: seq<Error>, ghost replies: seq<HostReply>)
    requires w.Valid()
    modifies w
    ensures w.Valid()
    ensures |replies| == |Claims(w.lib, svc)|
    ensures var b := Run(Close, old(w.portsMap), w.localAddrSet, w.lib, svc, Claims(w.lib, svc), replies);
      errs == b.errs && w.portsMap == b.ledger && w.events == old(w.events) + b.events &&
      w.hostCalls == old(w.hostCalls) + b.hostCalls
    ensures w.calls == old(w.calls) + Invoked(Close, w.lib, Claims(w.lib, svc))
  {
    errs, replies := HandleService(w, svc, Close);
  }

  /** updateServicePortClaim: the fast path, or delete(old) then add(new), errors in that order. */
  method UpdateServicePortClaim(w: PortClaimWatcher, oldSvc: Service, newSvc: Service)
    returns (errs: seq<Error>, ghost closeReplies: seq<HostReply>, ghost openReplies: seq<HostReply>)
    requires w.Valid()
    modifies w
    ensures w.Valid()
    ensures !SameServicePorts(oldSvc, newSvc) ==>
      |closeReplies| == |Claims(w.lib, oldSvc)| && |openReplies| == |Claims(w.lib, newSvc)|
    ensures var b := UpdateRun(old(w.portsMap), w.localAddrSet, w.lib, oldSvc, newSvc, closeReplies, openReplies);
      errs == b.errs && w.portsMap == b.ledger && w.events == old(w.events) + b.events &&
      w.hostCalls == old(w.hostCalls) + b.hostCalls
    ensures w.calls == old(w.calls) +
      if SameServicePorts(oldSvc, newSvc) then []
      else Invoked(Close, w.lib, Claims(w.lib, oldSvc)) + Invoked(Open, w.lib, Claims(w.lib, newSvc))
  {
    if oldSvc.externalIPs == newSvc.externalIPs && oldSvc.ports == newSvc.ports {
      return [], [], [];
    }
    ghost var calls0 := w.calls;
    ghost var closed := Invoked(Close, w.lib, Claims(w.lib, oldSvc));
    ghost var reopened := Invoked(Open, w.lib, Claims(w.lib, newSvc));
    var deleteErrs, addErrs;
    deleteErrs, closeReplies := DeleteServicePortClaim(w, oldSvc);
    addErrs, openReplies := AddServicePortClaim(w, newSvc);
    errs := deleteErrs + addErrs;
    ConcatAssoc(calls0, closed, reopened);
  }
}
