# Port-claim manager (ovn-kubernetes node agent), modelled in Dafny

The node agent of ovn-kubernetes keeps a TCP or UDP socket open on the node for every
NodePort and every ExternalIP that a Kubernetes Service declares, so that no other process
can take those ports. This project models that manager
(`go-controller/pkg/node/port_claim.go`) in three modules:

- `PortClaimTypes` (`types.dfy`): Services, service ports, claims, the `LocalPort`
  ledger key, host replies, and the error kinds. It also holds `Validators`, which stands
  for the library checks the manager calls: `util.ServiceTypeHasNodePort`,
  `util.ValidatePort` and the validation inside `utilnet.NewLocalPort`. They are total
  functions that are left uninterpreted, so every property holds for any choice of them.
- `ClaimExtractor` (`claims.dfy`): claim derivation.
  - `Description` is `getDescription`.
  - `Claims` is the ordered list of claims `handleService` hands to its handler.
  - Lemmas give the exact position of every claim and the shape of the descriptions.
- `PortLedger` (`ledger.dfy`): the ledger.
  - `OpenStep` and `CloseStep` state what `portClaimWatcher.open` and `close` do to
    `portsMap`, given what the host answers.
  - The class `PortClaimWatcher` carries the fields `portsMap` and `localAddrSet`. Its
    `Open` and `Close` methods follow the Go code check by check. Each is proved to
    have exactly the effect of the step function for the host reply it actually got.
  - Ghost counters record the emitted PortClaim events, the handler invocations, and the
    host calls.
- `Reconciler` (`driver.dfy`): reconciliation.
  - `HandlePort`, `HandleService`, and the add, delete and update entry points are
    methods over the watcher.
  - `Run` and `UpdateRun` are the left folds of handler steps over a claim list. The
    methods are proved against them.
  - Lemmas about the folds cover:
    - errors are collected and never stop the loop;
    - an open batch only adds entries;
    - a fully successful open batch holds exactly its old keys plus what it could hold;
    - a fully successful close batch removes exactly what it could hold;
    - add then delete restores the ledger;
    - the update fast path;
    - an update closes the old Service's claims before it opens any new one.

The OS calls `portOpener.OpenLocalPort` and `Closeable.Close` are the methods `HostOpen`
and `HostClose`. Their outcome is unconstrained. Each watcher method hands back the
answer it received as a ghost out-parameter, and its contract is stated in terms of that
answer.

## Model

| member | source | states |
|---|---|---|
| ClaimExtractor.Description | go-controller/pkg/node/port_claim.go:126-137 | getDescription itself. It has no contract of its own; DescriptionShape, DescriptionNamedSuffix, DescriptionKindsDiffer and DescriptionSeparatesPortNames state its properties. |
| ClaimExtractor.DescriptionShape | go-controller/pkg/node/port_claim.go:126-137 | A description has these parts, in order: the "nodePort for" or "externalIP for" label, a space, then "namespace/name". It is longer than that exactly when the port name is non-empty. |
| ClaimExtractor.DescriptionNamedSuffix | go-controller/pkg/node/port_claim.go:132-136 | A named port's description is the unnamed one followed by ":" and the port name. |
| ClaimExtractor.DescriptionKindsDiffer | go-controller/pkg/node/port_claim.go:126-137 | A NodePort description never equals an ExternalIP description, whatever the Services and port names. |
| ClaimExtractor.DescriptionSeparatesPortNames | go-controller/pkg/node/port_claim.go:121-137 | Within one Service and kind, distinct port names give distinct descriptions, and so distinct ledger keys. |
| ClaimExtractor.ExternalIPClaims | go-controller/pkg/node/port_claim.go:111-116 | The inner loop yields one claim per external IP. |
| ClaimExtractor.ClaimsOfPort | go-controller/pkg/node/port_claim.go:104-116 | Every declared port yields the same number of claims: one more when NodePorts apply, plus one per external IP. |
| ClaimExtractor.ExternalIPClaimsAt | go-controller/pkg/node/port_claim.go:111-116 | The j-th ExternalIP claim is for the j-th external IP, on the Service port (not the NodePort). |
| ClaimExtractor.ClaimsOfPortAt | go-controller/pkg/node/port_claim.go:105-116 | Within one declared port, the NodePort claim comes first when NodePorts apply. It binds the wildcard IP on the NodePort. The ExternalIP claims follow in list order. |
| ClaimExtractor.PortClaims | go-controller/pkg/node/port_claim.go:104-117 | The claims of handleService's outer loop, in order. Its properties are stated by PortClaimsSnoc, PortClaimsLength and PortClaimsAt. |
| ClaimExtractor.Claims | go-controller/pkg/node/port_claim.go:98-119 | The claim list handleService hands its handler, early return included. Its properties are stated by ClaimsIsPortLoop and ClaimsLayout. HandleService is proved to handle exactly this list. |
| ClaimExtractor.PortClaimsSnoc | go-controller/pkg/node/port_claim.go:104-117 | The port loop over one more port appends exactly that port's claims. |
| ClaimExtractor.PortClaimsLength | go-controller/pkg/node/port_claim.go:104-117 | The port loop yields (number of ports) × (claims per port) claims. |
| ClaimExtractor.PortClaimsAt | go-controller/pkg/node/port_claim.go:104-117 | The claim at position i·k + j (k claims per port) is the j-th claim of declared port i. |
| ClaimExtractor.PortClaimsEmptyWithoutExposure | go-controller/pkg/node/port_claim.go:99-102 | Without NodePorts and without external IPs the port loop yields no claim. |
| ClaimExtractor.ClaimsIsPortLoop | go-controller/pkg/node/port_claim.go:98-119 | The early return of handleService does not change which claims are handled. |
| ClaimExtractor.ClaimsLayout | go-controller/pkg/node/port_claim.go:98-119 | The claims of a Service, in handling order: their number, and which claim sits at each position. |
| PortLedger.OpenStep | go-controller/pkg/node/port_claim.go:159-198 | open behaves as follows:<br>- A non-local IP, or SCTP, returns nil and changes nothing.<br>- An unknown protocol is an error and emits an event.<br>- A TCP or UDP claim that utilnet.NewLocalPort rejects is an error, emits an event and leaves the map unchanged.<br>- A key already present is an error, with no event and the map unchanged.<br>- A host refusal is an error, emits an event and leaves the map unchanged.<br>- Success adds exactly the claim's key.<br>- Ledger well-formedness is preserved, and events accompany failures only. |
| PortLedger.CloseStep | go-controller/pkg/node/port_claim.go:200-229 | close behaves as follows:<br>- A protocol other than TCP or UDP, or a non-local IP, returns nil and changes nothing.<br>- A TCP or UDP claim that utilnet.NewLocalPort rejects is an error, with no event and the map unchanged.<br>- An absent key is an error.<br>- A failed host close is an error and keeps the entry.<br>- Success removes exactly that key.<br>- Keys never grow, and no event is emitted. |
| PortLedger.OpenIgnoresHostUnlessReached | go-controller/pkg/node/port_claim.go:162-197 | When open does not reach the opener (filtered, invalid or duplicate), its outcome does not depend on the host. |
| PortLedger.CloseIgnoresHostUnlessReached | go-controller/pkg/node/port_claim.go:203-228 | The same for close and Closeable.Close. |
| PortLedger.OpenThenCloseRestores | go-controller/pkg/node/port_claim.go:187-226 | A successful open followed by a successful close of the same claim returns nil and restores the prior map. |
| PortLedger.OpenTwiceIsDuplicate | go-controller/pkg/node/port_claim.go:187-195 | After a successful open, opening the same claim again is the "open again" error and keeps the map. |
| PortLedger.FailedCloseBlocksReopen | go-controller/pkg/node/port_claim.go:221-224 | A refused Close keeps the entry, so a later open of that claim is refused as a duplicate. |
| PortLedger.HostOpen | go-controller/pkg/node/port_claim.go:190 | portOpener.OpenLocalPort. It has no contract: the host may grant a socket or refuse, and every property above holds for either answer. |
| PortLedger.HostClose | go-controller/pkg/node/port_claim.go:222 | Closeable.Close. It has no contract: the host may succeed or fail, and every property above holds for either answer. |
| PortLedger.PortClaimWatcher.constructor | go-controller/pkg/node/port_claim.go:44-51 | A new watcher has an empty portsMap over the given local address set. |
| PortLedger.PortClaimWatcher.EmitPortClaimEvent | go-controller/pkg/node/port_claim.go:231-240 | Emitting a PortClaim event increases the event count by one. |
| PortLedger.PortClaimWatcher.Open | go-controller/pkg/node/port_claim.go:159-198 | The returned error, the new portsMap and the events are those of OpenStep for the host's answer. The opener is called exactly when the claim is holdable and its key is absent. |
| PortLedger.PortClaimWatcher.Close | go-controller/pkg/node/port_claim.go:200-229 | The returned error and the new portsMap are those of CloseStep, and no event is emitted. Close() is called exactly when the claim is holdable and its key is present. |
| Reconciler.HandlerStep | go-controller/pkg/node/port_claim.go:143 | The handler handleService was given (open or close), applied to one claim. It has no contract of its own; HandlePortStep states the result in terms of it. |
| Reconciler.HandlePortStep | go-controller/pkg/node/port_claim.go:139-147 | A port that fails ValidatePort is an error and leaves the map alone. Otherwise the result is exactly the handler's. |
| Reconciler.Run | go-controller/pkg/node/port_claim.go:98-119 | The batch of handlePort calls over a claim list returns at most one error per claim. It also counts the events and host calls. |
| Reconciler.Invoked | go-controller/pkg/node/port_claim.go:104-117 | A batch invokes its handler at most once per claim. |
| Reconciler.InvokedMembers | go-controller/pkg/node/port_claim.go:104-117 | The handler is invoked on a claim exactly when the claim is in the list and passes port validation, whatever earlier calls returned. |
| Reconciler.UnexposedServiceIsNoop | go-controller/pkg/node/port_claim.go:99-102 | A Service with neither NodePorts nor external IPs yields no claims, no handler calls, no errors and no change. |
| Reconciler.RunOpenOnlyAdds | go-controller/pkg/node/port_claim.go:159-198 | An open batch never removes or replaces an entry. It adds only keys of claims it can hold. |
| Reconciler.RunOpenGrantedHoldsAll | go-controller/pkg/node/port_claim.go:187-196 | An open batch whose every host open succeeds holds afterwards exactly the keys it held before plus the keys of every valid, holdable claim. |
| Reconciler.RunCloseGrantedRemovesHeld | go-controller/pkg/node/port_claim.go:200-229 | A close batch whose every host close succeeds removes exactly the keys of the holdable claims. |
| Reconciler.AddThenDeleteRestores | go-controller/pkg/node/port_claim.go:90-96 | Adding a Service and then deleting it restores the prior map, provided every close succeeds and the Service's keys were not held before. This holds whatever the opens returned. |
| Reconciler.UpdateRun | go-controller/pkg/node/port_claim.go:149-157 | What updateServicePortClaim does as a whole: nothing on the fast path, otherwise the close batch of the old Service and then the open batch of the new one. It has no contract of its own; UpdateFastPath and UpdateClosesOldBeforeOpening state its properties. |
| Reconciler.UpdateFastPath | go-controller/pkg/node/port_claim.go:150-152 | With equal ExternalIPs and Ports, an update returns no errors and changes nothing. |
| Reconciler.UpdateClosesOldBeforeOpening | go-controller/pkg/node/port_claim.go:153-156 | Otherwise the opens start from the map without the old Service's keys (when every close succeeds). The errors are the delete errors followed by the add errors. |
| Reconciler.HandlePort | go-controller/pkg/node/port_claim.go:139-147 | The error and the state change are those of HandlePortStep. The handler is invoked exactly when the port is valid. The host is called exactly when the handler reaches it. |
| Reconciler.HandleAndCollect | go-controller/pkg/node/port_claim.go:107-115 | One loop step: handlePort, and its error is appended when there is one. The running totals stay equal to Run and Invoked over the claims handled so far. |
| Reconciler.HandleServicePort | go-controller/pkg/node/port_claim.go:105-116 | One outer-loop iteration handles exactly that port's claims, in order. |
| Reconciler.HandlePorts | go-controller/pkg/node/port_claim.go:104-118 | The outer loop handles exactly the port loop's claims, in order. |
| Reconciler.HandleService | go-controller/pkg/node/port_claim.go:98-119 | The returned errors, the new portsMap, the events and the host calls are those of Run over Claims(svc). The handler calls are exactly Invoked over Claims(svc), in order. |
| Reconciler.AddServicePortClaim | go-controller/pkg/node/port_claim.go:90-92 | handleService with open. |
| Reconciler.DeleteServicePortClaim | go-controller/pkg/node/port_claim.go:94-96 | handleService with close. |
| Reconciler.UpdateServicePortClaim | go-controller/pkg/node/port_claim.go:149-157 | The result and new state are those of UpdateRun:<br>- no calls on the fast path;<br>- otherwise every close of the old Service, then every open of the new one, with the errors in that order. |

## Left out

- `initPortClaimWatcher` (port_claim.go:53-88) is informer registration and klog logging. `getLocalAddrs` is not part of this model. The address set is a constructor parameter.
- The package-level `portHandler` and `portOpener` variables are replaced by an explicit watcher argument. The opener becomes the `HostOpen` method.
- Real sockets: `OpenLocalPort` and `Closeable.Close` are foreign OS calls. Their outcome is arbitrary, and a socket is only an identity.
- `activeSocketsLock`: each open and close is treated as atomic. Concurrent callers are not modelled.
- `emitPortClaimEvent`: the event recorder and its message text are not modelled. Only the count of emitted events is kept.
- klog output is not modelled. Error messages are modelled as error kinds carrying the values the message names.
- `util.ValidatePort`, `util.ServiceTypeHasNodePort` and `utilnet.NewLocalPort` validation are not part of this model. They are uninterpreted functions in `Validators`.
- `reflect.DeepEqual` is structural sequence equality. Go tells a nil slice from an empty one, and this model does not.
- Service port fields that claims never read are stood for by one field, `targetPort`. They still take part in the fast-path comparison.
- `kapi.Protocol` is a free string in Go. In the model a protocol is TCP, UDP, SCTP or `Other(name)`, and `Other` is meant for every other name. Nothing stops a caller from writing `Other("TCP")`, which the model treats as an unknown protocol, unlike Go.
- Ports are unbounded integers. The int32 width of `NodePort` and `Port` is not modelled.
- The source declares `LocalPort`'s IP family as `""` and never changes it. The key is built with that constant.
- Reconciler.Run: its contract states only a bound on the number of errors. Preservation of ledger well-formedness across a batch is carried by the watcher methods' `Valid()` and not restated on the fold.
- `go-controller/pkg/ovn/namespace_test.go` is an OVN namespace test that does not involve port claims. It is not part of this model.
