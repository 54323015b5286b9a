/**
 * The peer client: the node's key material from a one-byte seed, the two
 * listen addresses it requests (TCP first, then QUIC), and the event loop
 * that records the addresses remote peers observed this node at.
 *
 * The transport, the cryptography behind a keypair and the peer identifier
 * are foreign: a keypair is kept as the secret bytes it was made from, and
 * the transport's answer to a listen request is a fixed map from the
 * addresses it refuses to the error it reports for each.
 */
module Client {
  import opened Prim

  /** Four octets of an IPv4 address. */
  type Ipv4Addr = s: seq<u8> | |s| == 4 witness [0, 0, 0, 0]

  /** Eight 16-bit segments of an IPv6 address. */
  type Ipv6Addr = s: seq<u16> | |s| == 8 witness [0, 0, 0, 0, 0, 0, 0, 0]

  /** `0.0.0.0`. */
  const Ipv4Unspecified: Ipv4Addr := [0, 0, 0, 0]

  /** `::`. */
  const Ipv6Unspecified: Ipv6Addr := [0, 0, 0, 0, 0, 0, 0, 0]

  /** One segment of a multiaddress. */
  datatype Protocol =
    | Ip4(ip4: Ipv4Addr)
    | Ip6(ip6: Ipv6Addr)
    | Tcp(tcpPort: u16)
    | Udp(udpPort: u16)
    | QuicV1

  /** A multiaddress: protocol segments, outermost first. */
  type Multiaddr = seq<Protocol>

  /** `Multiaddr::with`: the address with one more segment at its end. */
  function With(a: Multiaddr, p: Protocol): (r: Multiaddr)
    ensures |r| == |a| + 1 && r[|a|] == p
    ensures r[..|a|] == a
  {
    a + [p]
  }

  /** The unspecified IP segment of the chosen family. */
  function UnspecifiedIp(useIpv6: bool): (p: Protocol)
    ensures p.Ip6? <==> useIpv6
    ensures p.Ip4? <==> !useIpv6
    ensures p.Ip4? ==> p.ip4 == Ipv4Unspecified
    ensures p.Ip6? ==> p.ip6 == Ipv6Unspecified
  {
    if useIpv6 then Ip6(Ipv6Unspecified) else Ip4(Ipv4Unspecified)
  }

  /** The TCP listen address on all interfaces: two segments, the IP of the chosen family then TCP on `port`. */
  function TcpListenAddr(useIpv6: bool, port: u16): (r: Multiaddr)
    ensures |r| == 2 && r[1] == Tcp(port)
    ensures r[0].Ip6? <==> useIpv6
    ensures r[0] == UnspecifiedIp(useIpv6)
  {
    With(With([], UnspecifiedIp(useIpv6)), Tcp(port))
  }

  /** The QUIC listen address on all interfaces: the IP of the chosen family, UDP on `port`, then QUIC v1. */
  function QuicListenAddr(useIpv6: bool, port: u16): (r: Multiaddr)
    ensures |r| == 3 && r[1] == Udp(port) && r[2] == QuicV1
    ensures r[0].Ip6? <==> useIpv6
    ensures r[0] == UnspecifiedIp(useIpv6)
  {
    With(With(With([], UnspecifiedIp(useIpv6)), Udp(port)), QuicV1)
  }

  /** Both listen addresses use the same IP segment and the same port number, and they are different addresses. */
  lemma ListenAddrsAgree(useIpv6: bool, port: u16)
    ensures TcpListenAddr(useIpv6, port)[0] == QuicListenAddr(useIpv6, port)[0]
    ensures TcpListenAddr(useIpv6, port)[1].tcpPort == QuicListenAddr(useIpv6, port)[1].udpPort == port
    ensures TcpListenAddr(useIpv6, port) != QuicListenAddr(useIpv6, port)
  {
  }

  /** An Ed25519 keypair, known here only by the 32 secret bytes it was made from. */
  datatype Keypair = Ed25519(secret: seq<u8>)

  /** Why secret key bytes were rejected. */
  datatype KeyError = InvalidLength(length: nat)

  /** `Keypair::ed25519_from_bytes`: a keypair from secret bytes; only a length other than 32 is an error. */
  function Ed25519FromBytes(bytes: seq<u8>): (r: Result<Keypair, KeyError>)
    ensures r.Ok? <==> |bytes| == 32
    ensures r.Ok? ==> r.value.secret == bytes
  {
    if |bytes| == 32 then Ok(Ed25519(bytes)) else Err(InvalidLength(|bytes|))
  }

  /** The 32 secret bytes derived from a seed: the seed, then 31 zero bytes. */
  function SeedMaterial(seed: u8): (m: seq<u8>)
    ensures |m| == 32 && m[0] == seed
    ensures forall i :: 1 <= i < |m| ==> m[i] == 0
  {
    [seed] + seq(31, _ => 0)
  }

  /** Distinct seeds give distinct key material: the seed is recovered from byte 0. */
  lemma SeedMaterialInjective(s1: u8, s2: u8)
    ensures SeedMaterial(s1) == SeedMaterial(s2) <==> s1 == s2
    ensures Ed25519(SeedMaterial(s1)) == Ed25519(SeedMaterial(s2)) <==> s1 == s2
  {
  }

  /** `generate_ed25519`: fills a zeroed 32-byte buffer, sets byte 0 to the seed and builds the keypair, which cannot fail. */
  method GenerateEd25519(seed: u8) returns (key: Keypair)
    ensures |key.secret| == 32 && key.secret[0] == seed
    ensures forall i :: 1 <= i < |key.secret| ==> key.secret[i] == 0
    ensures key == Ed25519(SeedMaterial(seed))
  {
    var bytes := new u8[32](_ => 0);
    bytes[0] := seed;
    var r := Ed25519FromBytes(bytes[..]);
    assert bytes[..] == SeedMaterial(seed);
    // `generate_ed25519`'s `expect` never fires: the buffer always has 32 bytes.
    assert r.Ok?;
    key := r.value;
  }

  /** An opaque peer identifier. */
  datatype PeerId = PeerId(digest: seq<u8>)

  /** What an identify exchange reports about the remote side. */
  datatype IdentifyInfo = IdentifyInfo(
    protocolVersion: string,
    listenAddrs: seq<Multiaddr>,
    observedAddr: Multiaddr)

  /** Events of the identify behaviour. */
  datatype IdentifyEvent =
    | Received(peer: PeerId, info: IdentifyInfo)
    | Sent(peer: PeerId)
    | Pushed(peer: PeerId, info: IdentifyInfo)
    | IdentifyError(peer: PeerId)

  /** Events of the combined relay, ping and identify behaviour; relay and ping events are opaque. */
  datatype BehaviourEvent =
    | Relay
    | Ping(peer: PeerId)
    | Identify(identify: IdentifyEvent)

  /** Events the swarm produces. */
  datatype SwarmEvent =
    | Behaviour(behaviour: BehaviourEvent)
    | NewListenAddr(listenerId: nat, address: Multiaddr)
    | ExpiredListenAddr(listenerId: nat, address: Multiaddr)
    | ConnectionEstablished(peer: PeerId)
    | ConnectionClosed(peer: PeerId)
    | OutgoingConnectionError
    | IncomingConnectionError
    | Dialing(peer: PeerId)

  /** The address a remote peer observed this node at, when the event is an identify `Received`. */
  function ObservedAddress(e: SwarmEvent): Option<Multiaddr>
  {
    match e
    case Behaviour(Identify(Received(_, info))) => Some(info.observedAddr)
    case _ => None
  }

  /** The external address set after one event: at most the observed address is added, nothing is removed. */
  function AfterEvent(external: set<Multiaddr>, e: SwarmEvent): (r: set<Multiaddr>)
    ensures external <= r
    ensures ObservedAddress(e).Some? ==> ObservedAddress(e).value in r
    ensures ObservedAddress(e).None? ==> r == external
    ensures forall a :: a in r ==> a in external || ObservedAddress(e) == Some(a)
  {
    match ObservedAddress(e)
    case Some(a) => external + {a}
    case None => external
  }

  /** The external address set after a sequence of events, handled first to last; it never loses an address. */
  function AfterEvents(external: set<Multiaddr>, events: seq<SwarmEvent>): (r: set<Multiaddr>)
    ensures external <= r
    decreases |events|
  {
    if |events| == 0 then external
    else AfterEvent(AfterEvents(external, events[..|events| - 1]), events[|events| - 1])
  }

  /** An identify `Received` adds exactly its observed address; every other event leaves the set alone. */
  lemma AfterEventExactly(external: set<Multiaddr>, e: SwarmEvent)
    ensures e.Behaviour? && e.behaviour.Identify? && e.behaviour.identify.Received? ==>
            AfterEvent(external, e) == external + {e.behaviour.identify.info.observedAddr}
    ensures !(e.Behaviour? && e.behaviour.Identify? && e.behaviour.identify.Received?) ==>
            AfterEvent(external, e) == external
  {
  }

  /** Handling `xs` then `ys` is handling `xs + ys`. */
  lemma {:induction false} AfterEventsConcat(external: set<Multiaddr>, xs: seq<SwarmEvent>, ys: seq<SwarmEvent>)
    ensures AfterEvents(external, xs + ys) == AfterEvents(AfterEvents(external, xs), ys)
    decreases |ys|
  {
    if |ys| == 0 {
      assert xs + ys == xs;
    } else {
      var init := ys[..|ys| - 1];
      assert (xs + ys)[..|xs + ys| - 1] == xs + init;
      AfterEventsConcat(external, xs, init);
    }
  }

  /** The external address set never shrinks: each later point of the event stream holds everything an earlier one did. */
  lemma AfterEventsGrows(external: set<Multiaddr>, events: seq<SwarmEvent>, i: nat, j: nat)
    requires i <= j <= |events|
    ensures external <= AfterEvents(external, events[..i]) <= AfterEvents(external, events[..j])
  {
    assert events[..j] == events[..i] + events[i..j];
    AfterEventsConcat(external, events[..i], events[i..j]);
  }

  /**
   * The external address set holds exactly the starting addresses and the
   * addresses some identify `Received` event reported as observed.
   */
  lemma {:induction false} AfterEventsContents(external: set<Multiaddr>, events: seq<SwarmEvent>)
    ensures forall a :: a in AfterEvents(external, events) <==>
              a in external || exists i :: 0 <= i < |events| && ObservedAddress(events[i]) == Some(a)
    decreases |events|
  {
    if |events| > 0 {
      var n := |events| - 1;
      var init := events[..n];
      AfterEventsContents(external, init);
      forall a
        ensures a in AfterEvents(external, events) <==>
                a in external || exists i :: 0 <= i < |events| && ObservedAddress(events[i]) == Some(a)
      {
        if exists i :: 0 <= i < n && ObservedAddress(init[i]) == Some(a) {
          var i :| 0 <= i < n && ObservedAddress(init[i]) == Some(a);
          assert events[i] == init[i];
        }
        if exists i :: 0 <= i < |events| && ObservedAddress(events[i]) == Some(a) {
          var i :| 0 <= i < |events| && ObservedAddress(events[i]) == Some(a);
          if i < n {
            assert init[i] == events[i];
          }
        }
      }
    }
  }

  /** Why the transport refused to listen on an address: an unsupported address, or any other failure such as a bind error. */
  datatype TransportError = MultiaddrNotSupported(addr: Multiaddr) | Other(reason: string)

  /** How `start_client` stands: it returned an error, or it is still running its event loop. */
  datatype ClientStatus = Failed(error: TransportError) | Running

  /** The swarm: the node's key, its listeners and its confirmed external addresses. */
  class Swarm {
    const localKey: Keypair
    /** The listen addresses the transport refuses, each with the error it reports. */
    const refused: map<Multiaddr, TransportError>
    /** The addresses listened on, in the order the listeners were created. */
    var listeners: seq<Multiaddr>
    /** Every address listening was requested on, in order, whether or not it succeeded. */
    ghost var listenAttempts: seq<Multiaddr>
    /** The confirmed external addresses. */
    var externalAddresses: set<Multiaddr>

    /** A swarm with no listeners and no external addresses. */
    constructor (key: Keypair, refusals: map<Multiaddr, TransportError>)
      ensures localKey == key && refused == refusals
      ensures listeners == [] && listenAttempts == [] && externalAddresses == {}
    {
      localKey := key;
      refused := refusals;
      listeners := [];
      listenAttempts := [];
      externalAddresses := {};
    }

    /** `Swarm::listen_on`: starts a listener on `addr` unless the transport refuses it. */
    method ListenOn(addr: Multiaddr) returns (r: Result<nat, TransportError>)
      modifies this`listeners, this`listenAttempts
      ensures listenAttempts == old(listenAttempts) + [addr]
      ensures r.Ok? <==> addr !in refused
      ensures r.Ok? ==> r.value == |old(listeners)| && listeners == old(listeners) + [addr]
      ensures r.Err? ==> r.error == refused[addr] && listeners == old(listeners)
    {
      listenAttempts := listenAttempts + [addr];
      if addr in refused {
        r := Err(refused[addr]);
      } else {
        r := Ok(|listeners|);
        listeners := listeners + [addr];
      }
    }

    /** `Swarm::add_external_address`: records `addr` as a confirmed external address. */
    method AddExternalAddress(addr: Multiaddr)
      modifies this`externalAddresses
      ensures externalAddresses == old(externalAddresses) + {addr}
    {
      externalAddresses := externalAddresses + {addr};
    }

    /** One turn of the event loop: an identify `Received` confirms its observed address; other events are only logged. */
    method HandleEvent(e: SwarmEvent)
      modifies this`externalAddresses
      ensures externalAddresses == AfterEvent(old(externalAddresses), e)
      ensures old(externalAddresses) <= externalAddresses
    {
      match e
      case Behaviour(event) =>
        if event.Identify? && event.identify.Received? {
          AddExternalAddress(event.identify.info.observedAddr);
        }
      case NewListenAddr(_, _) =>
      case _ =>
    }

    /** The event loop over a finite prefix of the swarm's endless event stream. */
    method RunEvents(events: seq<SwarmEvent>)
      modifies this`externalAddresses
      ensures externalAddresses == AfterEvents(old(externalAddresses), events)
    {
      var i := 0;
      while i < |events|
        invariant 0 <= i <= |events|
        invariant externalAddresses == AfterEvents(old(externalAddresses), events[..i])
      {
        HandleEvent(events[i]);
        assert events[..i + 1][..i] == events[..i];
        i := i + 1;
      }
      assert events[..|events|] == events;
    }
  }

  /**
   * `start_client`: derives the key, requests listening on TCP and then on
   * QUIC, returning the first refusal; otherwise runs the event loop over
   * `events`. Building the transport and behaviours is not modelled.
   */
  method StartClient(seed: u8, port: u16, useIpv6: bool, refused: map<Multiaddr, TransportError>, events: seq<SwarmEvent>)
    returns (swarm: Swarm, status: ClientStatus)
    ensures swarm.localKey == Ed25519(SeedMaterial(seed)) && swarm.refused == refused
    ensures var tcp := TcpListenAddr(useIpv6, port);
            tcp in refused ==>
              status == Failed(refused[tcp]) && swarm.listenAttempts == [tcp] && swarm.listeners == []
    ensures var tcp, quic := TcpListenAddr(useIpv6, port), QuicListenAddr(useIpv6, port);
            tcp !in refused && quic in refused ==>
              status == Failed(refused[quic]) && swarm.listenAttempts == [tcp, quic] && swarm.listeners == [tcp]
    ensures var tcp, quic := TcpListenAddr(useIpv6, port), QuicListenAddr(useIpv6, port);
            tcp !in refused && quic !in refused ==>
              status == Running && swarm.listenAttempts == [tcp, quic] && swarm.listeners == [tcp, quic]
    ensures status.Failed? ==> swarm.externalAddresses == {}
    ensures status.Running? ==> swarm.externalAddresses == AfterEvents({}, events)
  {
    var localKey := GenerateEd25519(seed);
    swarm := new Swarm(localKey, refused);

    var listenAddrTcp := With(With([], UnspecifiedIp(useIpv6)), Tcp(port));
    var r := swarm.ListenOn(listenAddrTcp);
    if r.Err? {
      return swarm, Failed(r.error);
    }

    var listenAddrQuic := With(With(With([], UnspecifiedIp(useIpv6)), Udp(port)), QuicV1);
    r := swarm.ListenOn(listenAddrQuic);
    if r.Err? {
      return swarm, Failed(r.error);
    }

    swarm.RunEvents(events);
    status := Running;
  }
}
