/**
 * Claim derivation: the ordered list of (description, ip, port, protocol)
 * reservations that handleService hands to its handler for one Service, and
 * the free-text description that becomes part of the ledger key.
 */
module ClaimExtractor {
  import opened PortClaimTypes

  const NodePortDescr := "nodePort for"
  const ExternalPortDescr := "externalIP for"

  /** types.NamespacedName.String(): namespace, '/', name. */
  function NamespacedName(svc: Service): string
  {
    svc.namespace + "/" + svc.name
  }

  /** getDescription: "<kind> <ns>/<name>", with ":<portName>" appended when the port is named. */
  function Description(portName: string, svc: Service, nodePort: bool): string
  {
    var prefix := if nodePort then NodePortDescr else ExternalPortDescr;
    if |portName| == 0 then
      prefix + " " + NamespacedName(svc)
    else
      prefix + " " + NamespacedName(svc) + ":" + portName
  }

  /** A NodePort claim binds every interface ("") on the port's NodePort. */
  function NodePortClaim(svc: Service, sp: ServicePort): Claim
  {
    Claim(Description(sp.name, svc, true), "", sp.nodePort, sp.protocol)
  }

  /** An ExternalIP claim binds that IP on the Service port (not the NodePort). */
  function ExternalIPClaim(svc: Service, sp: ServicePort, ip: string): Claim
  {
    Claim(Description(sp.name, svc, false), ip, sp.port, sp.protocol)
  }

  /** The inner loop of handleService: one claim per external IP, in list order. */
  function ExternalIPClaims(svc: Service, sp: ServicePort, ips: seq<string>): (cs: seq<Claim>)
    ensures |cs| == |ips|
  {
    if ips == [] then []
    else ExternalIPClaims(svc, sp, ips[..|ips| - 1]) + [ExternalIPClaim(svc, sp, ips[|ips| - 1])]
  }

  /** One iteration of the outer loop: the NodePort claim (if any), then the ExternalIP claims. */
  function ClaimsOfPort(svc: Service, nodePort: bool, sp: ServicePort): (cs: seq<Claim>)
    ensures |cs| == ClaimsPerPort(svc, nodePort)
  {
    (if nodePort then [NodePortClaim(svc, sp)] else []) + ExternalIPClaims(svc, sp, svc.externalIPs)
  }

  /** The outer loop over the declared ports, in order (defined on the last port, as the loop appends). */
  function PortClaims(svc: Service, nodePort: bool, ports: seq<ServicePort>): seq<Claim>
  {
    if ports == [] then []
    else PortClaims(svc, nodePort, ports[..|ports| - 1]) + ClaimsOfPort(svc, nodePort, ports[|ports| - 1])
  }

  /** The outer loop, one more port at a time. */
  lemma PortClaimsSnoc(svc: Service, nodePort: bool, ports: seq<ServicePort>, i: nat)
    requires i < |ports|
    ensures PortClaims(svc, nodePort, ports[..i + 1]) == PortClaims(svc, nodePort, ports[..i]) + ClaimsOfPort(svc, nodePort, ports[i])
  {
    assert ports[..i + 1][..i] == ports[..i];
  }

  /** All claims of a Service, with handleService's early return when nothing is exposed. */
  function Claims(lib: Validators, svc: Service): seq<Claim>
  {
    if !lib.hasNodePort(svc) && |svc.externalIPs| == 0 then []
    else PortClaims(svc, lib.hasNodePort(svc), svc.ports)
  }

  /** How many claims one declared port yields. */
  function ClaimsPerPort(svc: Service, nodePort: bool): nat
  {
    (if nodePort then 1 else 0) + |svc.externalIPs|
  }

  // ---------------------------------------------------------------- descriptions

  /** A description starts with its kind's label and a space, then "<ns>/<name>"; it is
      longer than that exactly when the port is named. */
  lemma DescriptionShape(portName: string, svc: Service, nodePort: bool)
    ensures var tag := (if nodePort then NodePortDescr else ExternalPortDescr) + " ";
      var d := Description(portName, svc, nodePort);
      |d| >= |tag| + |NamespacedName(svc)| &&
      d[..|tag|] == tag &&
      d[|tag|..|tag| + |NamespacedName(svc)|] == NamespacedName(svc) &&
      (|portName| == 0 <==> |d| == |tag| + |NamespacedName(svc)|)
  {
    var tag := (if nodePort then NodePortDescr else ExternalPortDescr) + " ";
    var name := NamespacedName(svc);
    var d := Description(portName, svc, nodePort);
    if |portName| == 0 {
      assert d == tag + name;
    } else {
      assert d == tag + name + (":" + portName);
      assert (tag + name + (":" + portName))[..|tag|] == tag;
    }
  }

  /** A NodePort description never equals an ExternalIP one, whatever the names. */
  lemma DescriptionKindsDiffer(p1: string, s1: Service, p2: string, s2: Service)
    ensures Description(p1, s1, true) != Description(p2, s2, false)
  {
    DescriptionShape(p1, s1, true);
    DescriptionShape(p2, s2, false);
    var d1, d2 := Description(p1, s1, true), Description(p2, s2, false);
    assert d1[0] == d1[..|NodePortDescr| + 1][0] == 'n';
    assert d2[0] == d2[..|ExternalPortDescr| + 1][0] == 'e';
  }

  /** A named port's description is the unnamed one followed by ":" and the port name. */
  lemma DescriptionNamedSuffix(portName: string, svc: Service, nodePort: bool)
    requires |portName| > 0
    ensures Description(portName, svc, nodePort) == Description("", svc, nodePort) + ":" + portName
  {
  }

  /** Within one Service and kind, distinct port names give distinct descriptions,
      so the claims of a multi-port Service get distinct ledger keys. */
  lemma DescriptionSeparatesPortNames(p1: string, p2: string, svc: Service, nodePort: bool)
    requires p1 != p2
    ensures Description(p1, svc, nodePort) != Description(p2, svc, nodePort)
  {
    var base := Description("", svc, nodePort);
    if |p1| > 0 && |p2| > 0 {
      DescriptionNamedSuffix(p1, svc, nodePort);
      DescriptionNamedSuffix(p2, svc, nodePort);
      assert (base + ":" + p1)[|base| + 1..] == p1;
      assert (base + ":" + p2)[|base| + 1..] == p2;
    }
  }

  // ---------------------------------------------------------------- claim order

  /** Without NodePorts and without external IPs the port loop yields nothing: the early
      return of handleService does not change which claims are handled. */
  lemma {:induction false} PortClaimsEmptyWithoutExposure(svc: Service, ports: seq<ServicePort>)
    requires |svc.externalIPs| == 0
    ensures PortClaims(svc, false, ports) == []
  {
    if ports != [] {
      PortClaimsEmptyWithoutExposure(svc, ports[..|ports| - 1]);
    }
  }

  /** Claims is the plain port loop, early return or not. */
  lemma ClaimsIsPortLoop(lib: Validators, svc: Service)
    ensures Claims(lib, svc) == PortClaims(svc, lib.hasNodePort(svc), svc.ports)
  {
    if !lib.hasNodePort(svc) && |svc.externalIPs| == 0 {
      PortClaimsEmptyWithoutExposure(svc, svc.ports);
    }
  }

  /** Each declared port contributes the same number of claims. */
  lemma {:induction false} PortClaimsLength(svc: Service, nodePort: bool, ports: seq<ServicePort>)
    ensures |PortClaims(svc, nodePort, ports)| == |ports| * ClaimsPerPort(svc, nodePort)
  {
    if ports != [] {
      var n, k := |ports|, ClaimsPerPort(svc, nodePort);
      PortClaimsLength(svc, nodePort, ports[..n - 1]);
      MulSucc(n - 1, k);
    }
  }

  /** The inner loop visits the external IPs in list order. */
  lemma {:induction false} ExternalIPClaimsAt(svc: Service, sp: ServicePort, ips: seq<string>, j: nat)
    requires j < |ips|
    ensures ExternalIPClaims(svc, sp, ips)[j] == ExternalIPClaim(svc, sp, ips[j])
  {
    var n := |ips| - 1;
    if j < n {
      ExternalIPClaimsAt(svc, sp, ips[..n], j);
    }
  }

  /** The j-th claim of one declared port: the NodePort claim first when NodePorts apply,
      then one ExternalIP claim per external IP, in list order. */
  function ClaimAt(svc: Service, nodePort: bool, sp: ServicePort, j: nat): Claim
    requires j < ClaimsPerPort(svc, nodePort)
  {
    if nodePort && j == 0 then NodePortClaim(svc, sp)
    else ExternalIPClaim(svc, sp, svc.externalIPs[j - (if nodePort then 1 else 0)])
  }

  /** One iteration of the outer loop hands out its claims in ClaimAt order. */
  lemma ClaimsOfPortAt(svc: Service, nodePort: bool, sp: ServicePort, j: nat)
    requires j < ClaimsPerPort(svc, nodePort)
    ensures ClaimsOfPort(svc, nodePort, sp)[j] == ClaimAt(svc, nodePort, sp, j)
  {
    var off := if nodePort then 1 else 0;
    if j >= off {
      ExternalIPClaimsAt(svc, sp, svc.externalIPs, j - off);
    }
  }

  /** The claim at position i*k + j (k claims per port) is the j-th claim of port i. */
  lemma {:induction false} PortClaimsAt(svc: Service, nodePort: bool, ports: seq<ServicePort>, i: nat, j: nat)
    requires i < |ports| && j < ClaimsPerPort(svc, nodePort)
    ensures i * ClaimsPerPort(svc, nodePort) + j < |PortClaims(svc, nodePort, ports)|
    ensures PortClaims(svc, nodePort, ports)[i * ClaimsPerPort(svc, nodePort) + j] ==
      ClaimAt(svc, nodePort, ports[i], j)
  {
    var n, k := |ports|, ClaimsPerPort(svc, nodePort);
    var init := ports[..n - 1];
    var head, tail := PortClaims(svc, nodePort, init), ClaimsOfPort(svc, nodePort, ports[n - 1]);
    assert PortClaims(svc, nodePort, ports) == head + tail;
    PortClaimsLength(svc, nodePort, init);
    if i < n - 1 {
      PortClaimsAt(svc, nodePort, init, i, j);
      assert ports[i] == init[i];
    } else {
      ClaimsOfPortAt(svc, nodePort, ports[i], j);
    }
  }

  /** The order handleService visits claims in, stated on Claims itself. */
  lemma ClaimsLayout(lib: Validators, svc: Service, i: nat, j: nat)
    requires i < |svc.ports| && j < ClaimsPerPort(svc, lib.hasNodePort(svc))
    ensures |Claims(lib, svc)| == |svc.ports| * ClaimsPerPort(svc, lib.hasNodePort(svc))
    ensures i * ClaimsPerPort(svc, lib.hasNodePort(svc)) + j < |Claims(lib, svc)|
    ensures Claims(lib, svc)[i * ClaimsPerPort(svc, lib.hasNodePort(svc)) + j] ==
      ClaimAt(svc, lib.hasNodePort(svc), svc.ports[i], j)
  {
    ClaimsIsPortLoop(lib, svc);
    PortClaimsLength(svc, lib.hasNodePort(svc), svc.ports);
    PortClaimsAt(svc, lib.hasNodePort(svc), svc.ports, i, j);
  }

  lemma MulSucc(a: nat, k: nat)
    ensures a * k + k == (a + 1) * k
  {
  }
}
