/**
 * The values the port-claim manager works on: Services as the watch layer
 * delivers them, the claims derived from them, the ledger key, host replies,
 * errors, and the validation library the manager calls but does not define.
 */
module PortClaimTypes {

  datatype Option<+T> = None | Some(value: T)

  /** kapi.Protocol: a free string in the API; anything but the three known values is Other. */
  datatype Protocol = TCP | UDP | SCTP | Other(name: string)

  /** One entry of svc.Spec.Ports. `targetPort` stands for the fields claims never use
      (they still take part in the deep equality of the update fast path). */
  datatype ServicePort = ServicePort(
    name: string,
    protocol: Protocol,
    port: int,
    nodePort: int,
    targetPort: string)

  /** The parts of a kapi.Service the manager reads. */
  datatype Service = Service(
    namespace: string,
    name: string,
    serviceType: string,
    ports: seq<ServicePort>,
    externalIPs: seq<string>)

  /** The arguments handleService passes to its handler (besides the Service itself). */
  datatype Claim = Claim(desc: string, ip: string, port: int, protocol: Protocol)

  /** utilnet.LocalPort: the whole record is the ledger key. */
  datatype LocalPort = LocalPort(
    description: string,
    ip: string,
    ipFamily: string,
    port: int,
    protocol: Protocol)

  /** An open socket held by the ledger (utilnet.Closeable); only its identity matters. */
  datatype Socket = Socket(id: nat)

  /** What the host answers to a socket open or close. For a close, `Granted` carries
      the socket that was closed. */
  datatype HostReply = Granted(socket: Socket) | Refused

  /** The error values the manager returns; each carries what its message names. */
  datatype Error =
    | InvalidPort(serviceName: string, port: int, protocol: Protocol)
    | UnknownProtocol(protocol: Protocol)
    | LocalPortRejected(ip: string, port: int)
    | HostOpenFailed(port: int)
    | AlreadyOpen(namespace: string, name: string, port: int)
    | LocalPortCreation(namespace: string, name: string, port: int)
    | CloseFailed(namespace: string, name: string, port: int)
    | NeverOpened(namespace: string, name: string, port: int)

  /**
   * Library checks the manager relies on but whose code is not part of this
   * model: util.ServiceTypeHasNodePort, util.ValidatePort and the validation
   * done by utilnet.NewLocalPort (description, ip, family, port, protocol).
   * Every property below holds whatever these functions are.
   */
  datatype Validators = Validators(
    hasNodePort: Service -> bool,
    portOk: (Protocol, int) -> bool,
    localPortOk: (string, string, string, int, Protocol) -> bool)

  /** Which handler handleService drives: portHandler.open or portHandler.close. */
  datatype Handler = Open | Close

  /** One invocation of a handler, as recorded in the watcher's ghost call log. */
  datatype Call = Call(handler: Handler, claim: Claim)

  predicate IsTcpOrUdp(p: Protocol)
  {
    p == TCP || p == UDP
  }

  /** Concatenation is associative (stated once, so that callers need not re-derive it). */
  lemma ConcatAssoc<T>(a: seq<T>, b: seq<T>, c: seq<T>)
    ensures a + b + c == a + (b + c)
  {
  }
}
