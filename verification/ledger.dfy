/**
 * The port-claim ledger: portClaimWatcher.open and portClaimWatcher.close over
 * portsMap (LocalPort -> open socket) and the read-only local address set.
 * OpenStep and CloseStep say what one call does, given what the host answers;
 * PortClaimWatcher's methods are proved to behave exactly as they say.
 */
module PortLedger {
  import opened PortClaimTypes

  type Ledger = map<LocalPort, Socket>

  /** The effect of one handler call: the error it returns, the ledger afterwards, and
      whether it emitted a PortClaim event. */
  datatype Step = Step(err: Option<Error>, ledger: Ledger, emitted: bool)

  /** The LocalPort open and close build for a claim; the IP family is always "". */
  function Key(c: Claim): LocalPort
  {
    LocalPort(c.desc, c.ip, "", c.port, c.protocol)
  }

  /** The wildcard address, or one of the node's own addresses. */
  predicate IsLocal(addrs: set<string>, ip: string)
  {
    ip == "" || ip in addrs
  }

  /** A claim the ledger can hold: TCP or UDP, on a local or wildcard address, that
      utilnet.NewLocalPort accepts. */
  predicate Holdable(addrs: set<string>, lib: Validators, c: Claim)
  {
    IsTcpOrUdp(c.protocol) && IsLocal(addrs, c.ip) && lib.localPortOk(c.desc, c.ip, "", c.port, c.protocol)
  }

  /** Every ledger entry is the key of a holdable claim. */
  ghost predicate WellFormed(m: Ledger, addrs: set<string>, lib: Validators)
  {
    forall k :: k in m ==>
      k.ipFamily == "" && IsTcpOrUdp(k.protocol) && IsLocal(addrs, k.ip) &&
      lib.localPortOk(k.description, k.ip, k.ipFamily, k.port, k.protocol)
  }

  /** open asks the host for a socket exactly for a holdable claim not yet in the ledger. */
  predicate OpenReachesHost(m: Ledger, addrs: set<string>, lib: Validators, c: Claim)
  {
    Holdable(addrs, lib, c) && Key(c) !in m
  }

  /** close asks the host to close a socket exactly for a holdable claim in the ledger. */
  predicate CloseReachesHost(m: Ledger, addrs: set<string>, lib: Validators, c: Claim)
  {
    Holdable(addrs, lib, c) && Key(c) in m
  }

  /** portClaimWatcher.open: the IP filter, then the protocol switch (SCTP is a no-op,
      an unknown protocol an error with an event), then duplicate detection, then the host. */
  function OpenStep(m: Ledger, addrs: set<string>, lib: Validators, c: Claim, svc: Service, reply: HostReply): (r: Step)
    // at most the claim's own key is added, and only on success
    ensures r.ledger == m || (r.err == None && OpenReachesHost(m, addrs, lib, c) && Key(c) in r.ledger && r.ledger == m[Key(c) := r.ledger[Key(c)]])
    ensures WellFormed(m, addrs, lib) ==> WellFormed(r.ledger, addrs, lib)
    // a foreign address or SCTP: success, nothing changes, no event
    ensures !IsLocal(addrs, c.ip) || c.protocol == SCTP ==> r == Step(None, m, false)
    ensures IsLocal(addrs, c.ip) && c.protocol.Other? ==> r == Step(Some(UnknownProtocol(c.protocol)), m, true)
    // utilnet.NewLocalPort refusing the claim is an error with an event
    ensures IsLocal(addrs, c.ip) && IsTcpOrUdp(c.protocol) && !lib.localPortOk(c.desc, c.ip, "", c.port, c.protocol) ==>
      r == Step(Some(LocalPortRejected(c.ip, c.port)), m, true)
    // a duplicate is refused whatever the host would have said, with no event
    ensures Holdable(addrs, lib, c) && Key(c) in m ==> r == Step(Some(AlreadyOpen(svc.namespace, svc.name, c.port)), m, false)
    ensures OpenReachesHost(m, addrs, lib, c) && reply.Refused? ==> r == Step(Some(HostOpenFailed(c.port)), m, true)
    ensures OpenReachesHost(m, addrs, lib, c) && reply.Granted? ==> r == Step(None, m[Key(c) := reply.socket], false)
    // events are emitted on failures only, and never for a duplicate
    ensures r.emitted ==> r.err.Some? && !r.err.value.AlreadyOpen?
  {
    if c.ip != "" && c.ip !in addrs then Step(None, m, false)
    else
      match c.protocol
      case SCTP => Step(None, m, false)
      case Other(_) => Step(Some(UnknownProtocol(c.protocol)), m, true)
      case _ =>
        if !lib.localPortOk(c.desc, c.ip, "", c.port, c.protocol) then Step(Some(LocalPortRejected(c.ip, c.port)), m, true)
        else if Key(c) in m then Step(Some(AlreadyOpen(svc.namespace, svc.name, c.port)), m, false)
        else match reply
          case Refused => Step(Some(HostOpenFailed(c.port)), m, true)
          case Granted(s) => Step(None, m[Key(c) := s], false)
  }

  /** portClaimWatcher.close: the protocol filter, then the IP filter, then the ledger
      lookup and the host; a failed close keeps the entry. close never emits an event. */
  function CloseStep(m: Ledger, addrs: set<string>, lib: Validators, c: Claim, svc: Service, reply: HostReply): (r: Step)
    // at most the claim's own key is removed, and only on success
    ensures r.ledger == m || (r.err == None && CloseReachesHost(m, addrs, lib, c) && r.ledger == m - {Key(c)})
    ensures r.ledger.Keys <= m.Keys
    ensures !r.emitted
    ensures !IsTcpOrUdp(c.protocol) || !IsLocal(addrs, c.ip) ==> r == Step(None, m, false)
    ensures IsLocal(addrs, c.ip) && IsTcpOrUdp(c.protocol) && !lib.localPortOk(c.desc, c.ip, "", c.port, c.protocol) ==>
      r == Step(Some(LocalPortCreation(svc.namespace, svc.name, c.port)), m, false)
    ensures Holdable(addrs, lib, c) && Key(c) !in m ==> r == Step(Some(NeverOpened(svc.namespace, svc.name, c.port)), m, false)
    ensures CloseReachesHost(m, addrs, lib, c) && reply.Refused? ==> r == Step(Some(CloseFailed(svc.namespace, svc.name, c.port)), m, false)
    ensures CloseReachesHost(m, addrs, lib, c) && reply.Granted? ==> r == Step(None, m - {Key(c)}, false)
  {
    if !IsTcpOrUdp(c.protocol) then Step(None, m, false)
    else if c.ip != "" && c.ip !in addrs then Step(None, m, false)
    else if !lib.localPortOk(c.desc, c.ip, "", c.port, c.protocol) then
      Step(Some(LocalPortCreation(svc.namespace, svc.name, c.port)), m, false)
    else if Key(c) in m then
      match reply
      case Refused => Step(Some(CloseFailed(svc.namespace, svc.name, c.port)), m, false)
      case Granted(_) => Step(None, m - {Key(c)}, false)
    else Step(Some(NeverOpened(svc.namespace, svc.name, c.port)), m, false)
  }

  // ---------------------------------------------------------------- properties of one call

  /** open consults the host only when it reaches it: otherwise its outcome is the same
      whatever the host would answer. */
  lemma OpenIgnoresHostUnlessReached(m: Ledger, addrs: set<string>, lib: Validators, c: Claim, svc: Service, r1: HostReply, r2: HostReply)
    requires !OpenReachesHost(m, addrs, lib, c)
    ensures OpenStep(m, addrs, lib, c, svc, r1) == OpenStep(m, addrs, lib, c, svc, r2)
  {
  }

  /** The same for close. */
  lemma CloseIgnoresHostUnlessReached(m: Ledger, addrs: set<string>, lib: Validators, c: Claim, svc: Service, r1: HostReply, r2: HostReply)
    requires !CloseReachesHost(m, addrs, lib, c)
    ensures CloseStep(m, addrs, lib, c, svc, r1) == CloseStep(m, addrs, lib, c, svc, r2)
  {
  }

  /** A successful open followed by a successful close of the same claim restores the ledger. */
  lemma OpenThenCloseRestores(m: Ledger, addrs: set<string>, lib: Validators, c: Claim, svc: Service, r1: HostReply, r2: HostReply)
    requires OpenStep(m, addrs, lib, c, svc, r1).err == None
    requires r2.Granted?
    ensures CloseStep(OpenStep(m, addrs, lib, c, svc, r1).ledger, addrs, lib, c, svc, r2) == Step(None, m, false)
  {
    var m1 := OpenStep(m, addrs, lib, c, svc, r1).ledger;
    if m1 != m {
      assert m1 - {Key(c)} == m;
    }
  }

  /** After a successful open, a second open of the same claim is refused and keeps the ledger. */
  lemma OpenTwiceIsDuplicate(m: Ledger, addrs: set<string>, lib: Validators, c: Claim, svc: Service, r1: HostReply, r2: HostReply)
    requires OpenReachesHost(m, addrs, lib, c) && r1.Granted?
    ensures var m1 := OpenStep(m, addrs, lib, c, svc, r1).ledger;
      OpenStep(m1, addrs, lib, c, svc, r2) == Step(Some(AlreadyOpen(svc.namespace, svc.name, c.port)), m1, false)
  {
  }

  /** A close that the host refuses leaves the entry in place, so a later open of the same
      claim is refused as a duplicate until a close succeeds. */
  lemma FailedCloseBlocksReopen(m: Ledger, addrs: set<string>, lib: Validators, c: Claim, svc: Service, r2: HostReply)
    requires CloseReachesHost(m, addrs, lib, c)
    ensures var m1 := CloseStep(m, addrs, lib, c, svc, Refused).ledger;
      m1 == m && OpenStep(m1, addrs, lib, c, svc, r2).err == Some(AlreadyOpen(svc.namespace, svc.name, c.port))
  {
  }

  // ---------------------------------------------------------------- the host

  /** utilnet.PortOpener.OpenLocalPort: the host may grant a socket or refuse. */
  method HostOpen(lp: LocalPort) returns (reply: HostReply)
  {
    reply := *;
  }

  /** utilnet.Closeable.Close: the host may close the socket or fail. */
  method HostClose(s: Socket) returns (ok: bool)
  {
    ok := *;
  }

  // ---------------------------------------------------------------- the watcher

  class PortClaimWatcher {
    var portsMap: Ledger
    const localAddrSet: set<string>
    /** The library checks this watcher was built against. */
    const lib: Validators
    /** PortClaim events emitted so far. */
    ghost var events: nat
    /** Every invocation of open or close, in order. */
    ghost var calls: seq<Call>
    /** How many times the host was asked to open or close a socket. */
    ghost var hostCalls: nat

    ghost predicate Valid()
      reads this
    {
      WellFormed(portsMap, localAddrSet, lib)
    }

    /** newPortClaimWatcher: an empty ledger over a fixed address set. */
    constructor (localAddrSet: set<string>, lib: Validators)
      ensures Valid()
      ensures this.localAddrSet == localAddrSet && this.lib == lib
      ensures portsMap == map[] && events == 0 && calls == [] && hostCalls == 0
    {
      this.localAddrSet := localAddrSet;
      this.lib := lib;
      portsMap := map[];
      events := 0;
      calls := [];
      hostCalls := 0;
    }

    /** emitPortClaimEvent: only the count of emitted events is modelled. */
    method EmitPortClaimEvent(svc: Service, port: int, err: Error)
      modifies this`events
      ensures events == old(events) + 1
    {
      events := events + 1;
    }

    method Open(c: Claim, svc: Service) returns (err: Option<Error>, ghost reply: HostReply)
      requires Valid()
      modifies this
      ensures Valid()
      ensures var s := OpenStep(old(portsMap), localAddrSet, lib, c, svc, reply);
        err == s.err && portsMap == s.ledger && events == old(events) + (if s.emitted then 1 else 0)
      ensures calls == old(calls) + [Call(Handler.Open, c)]
      ensures hostCalls == old(hostCalls) + (if OpenReachesHost(old(portsMap), localAddrSet, lib, c) then 1 else 0)
    {
      calls := calls + [Call(Handler.Open, c)];
      reply := Refused;
      if c.ip != "" && c.ip !in localAddrSet {
        return None, reply;
      }
      var portError: Option<Error> := None;
      match c.protocol {
        case TCP | UDP =>
          if !lib.localPortOk(c.desc, c.ip, "", c.port, c.protocol) {
            portError := Some(LocalPortRejected(c.ip, c.port));
          }
        case SCTP =>
          return None, reply;
        case Other(_) =>
          portError := Some(UnknownProtocol(c.protocol));
      }
      if portError.Some? {
        EmitPortClaimEvent(svc, c.port, portError.value);
        return portError, reply;
      }
      var localPort := Key(c);
      if localPort in portsMap {
        return Some(AlreadyOpen(svc.namespace, svc.name, c.port)), reply;
      }
      var answer := HostOpen(localPort);
      reply := answer;
      hostCalls := hostCalls + 1;
      if answer.Refused? {
        EmitPortClaimEvent(svc, c.port, HostOpenFailed(c.port));
        return Some(HostOpenFailed(c.port)), reply;
      }
      portsMap := portsMap[localPort := answer.socket];
      return None, reply;
    }

    method Close(c: Claim, svc: Service) returns (err: Option<Error>, ghost reply: HostReply)
      requires Valid()
      modifies this
      ensures Valid()
      ensures var s := CloseStep(old(portsMap), localAddrSet, lib, c, svc, reply);
        err == s.err && portsMap == s.ledger && events == old(events)
      ensures calls == old(calls) + [Call(Handler.Close, c)]
      ensures hostCalls == old(hostCalls) + (if CloseReachesHost(old(portsMap), localAddrSet, lib, c) then 1 else 0)
    {
      calls := calls + [Call(Handler.Close, c)];
      reply := Refused;
      if c.protocol != TCP && c.protocol != UDP {
        return None, reply;
      }
      if c.ip != "" && c.ip !in localAddrSet {
        return None, reply;
      }
      if !lib.localPortOk(c.desc, c.ip, "", c.port, c.protocol) {
        return Some(LocalPortCreation(svc.namespace, svc.name, c.port)), reply;
      }
      var localPort := Key(c);
      if localPort in portsMap {
        var socket := portsMap[localPort];
        var ok := HostClose(socket);
        hostCalls := hostCalls + 1;
        if !ok {
          return Some(CloseFailed(svc.namespace, svc.name, c.port)), reply;
        }
        reply := Granted(socket);
        portsMap := portsMap - {localPort};
        return None, reply;
      }
      return Some(NeverOpened(svc.namespace, svc.name, c.port)), reply;
    }
  }
}
