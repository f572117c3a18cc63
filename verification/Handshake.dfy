/**
 * The peer handshake of PeerNetwork (include/salticidae/network.h): two nodes, each with one Peer record
 * for the other, dial each other any number of times and exchange one Ping and at most one Pong on each
 * connection.  Every step is one dispatcher call; a connection carries its messages in order and may end
 * at either side at any time.
 */
module Handshake {
  const PASSIVE: nat := 0xffff

  datatype PeerState = Disconnected | Connected | Reset

  /**
   * Peer, with connections by number and -1 for none; nonce 0 is undrawn and preempt 0 is no deferred Ping.
   * mine is the set of connections whose Conn::peer is this record.  Auxiliary: replaced holds those of mine that a
   * later dial or conn_peer put aside, abandoned those whose peer a finished handshake cleared.
   */
  datatype Node = Node(addr: bool, state: PeerState, nonce: nat, conn: int, inbound: int, outbound: int, preempt: nat,
                       mine: set<int>, replaced: set<int>, abandoned: set<int>)

  /** One node's end of a connection: torn once del_conn has run.  Auxiliary: committed once chosen. */
  datatype End = End(terminated: bool, torn: bool, committed: bool)

  /**
   * A connection dialled by one node, with the nonces of its Ping and Pong in flight (0 for none).
   * Auxiliary: the nonces sent and replied, and the dialler's nonce when it judged the reply.
   */
  datatype Link = Link(dialler: nat, d: End, r: End, ping: nat, pong: nat, sent: nat, reply: nat, used: nat)

  /** Auxiliary: asked holds each connection and node that asked for its termination. */
  datatype State = State(nodes: seq<Node>, links: seq<Link>, asked: set<(int, nat)>)

  datatype Act =
    | Dial(i: nat)
    | Setup(c: nat, draw: nat)
    | RecvPing(c: nat, draw: nat)
    | RecvPong(c: nat, draw: nat)
    | Terminate(c: nat, i: nat)
    | Teardown(c: nat, i: nat, retry: bool)
    | ConnPeer(i: nat)

  predicate Typed(s: State) {
    |s.nodes| == 2 && forall c :: 0 <= c < |s.links| ==> s.links[c].dialler < 2
  }

  function EndOf(l: Link, i: nat): End { if l.dialler == i then l.d else l.r }

  function WithEnd(l: Link, i: nat, e: End): Link { if l.dialler == i then l.(d := e) else l.(r := e) }

  /** get_nonce: a nonce is drawn from 1..65536 on first use. */
  function GetNonce(n: Node, draw: nat): nat { if n.nonce == 0 then draw else n.nonce }

  predicate Drawn(draw: nat) { 1 <= draw <= 0x10000 }

  /** finish_handshake: the record commits to connection c. */
  function Finish(n: Node, c: int): Node {
    n.(state := Connected, conn := c, inbound := -1, outbound := -1, mine := n.mine - {n.outbound, n.conn} + {c},
       replaced := n.replaced - {c}, abandoned := n.abandoned + {n.outbound, n.conn} - {c})
  }

  /** The outbound connection, if it still has its peer. */
  function Outbound(n: Node): set<int> { if n.outbound in n.mine then {n.outbound} else {} }

  // ----- steps -----

  /** start_active_conn */
  function DoDial(s: State, i: nat): State
    requires i < |s.nodes|
  {
    var n, c := s.nodes[i], |s.links|;
    var e := End(false, false, false);
    State(s.nodes[i := n.(outbound := c, mine := n.mine + {c}, replaced := n.replaced + Outbound(n))],
          s.links + [Link(i, e, e, 0, 0, 0, 0, 0)], s.asked + (if n.outbound >= 0 then {(n.outbound, i)} else {}))
  }

  /** on_dispatcher_setup at the dialler */
  function DoSetup(s: State, c: nat, draw: nat): State
    requires Typed(s) && c < |s.links|
  {
    var l := s.links[c];
    var n := s.nodes[l.dialler];
    var r := GetNonce(n, draw);
    s.(nodes := s.nodes[l.dialler := n.(nonce := r)], links := s.links[c := l.(ping := r, sent := r)])
  }

  /** What ping_handler at the responder does to its record n. */
  function PingNode(n: Node, l: Link, c: nat, draw: nat): Node {
    if l.r.terminated || n.state.Reset? then n
    else if n.state.Connected? then n.(preempt := l.ping, inbound := c, nonce := PASSIVE)
    else
      var m := n.(nonce := GetNonce(n, draw), inbound := c);
      if l.ping < m.nonce || !n.addr then Finish(m, c) else m
  }

  /** The Pong it sends, if any, and whether it commits. */
  function PingLink(n: Node, l: Link, draw: nat): Link {
    if l.r.terminated || !n.state.Disconnected? then l.(ping := 0)
    else
      var r := GetNonce(n, draw);
      l.(ping := 0, pong := r, reply := r, r := l.r.(committed := l.ping < r || !n.addr))
  }

  /** The connections it asks to terminate. */
  function PingAsks(n: Node, i: nat, l: Link, c: nat, draw: nat): set<(int, nat)> {
    if l.r.terminated || n.state.Reset? then {}
    else if n.state.Connected? then {(n.conn, i)}
    else
      (if n.inbound >= 0 && n.inbound != c then {(n.inbound, i)} else {}) +
      (if l.ping < GetNonce(n, draw) || !n.addr then {} else {(c as int, i)})
  }

  function DoPing(s: State, c: nat, draw: nat): State
    requires Typed(s) && c < |s.links|
  {
    var l := s.links[c];
    var i := 1 - l.dialler;
    var n := s.nodes[i];
    s.(nodes := s.nodes[i := PingNode(n, l, c, draw)], links := s.links[c := PingLink(n, l, draw)],
       asked := s.asked + PingAsks(n, i, l, c, draw))
  }

  /** What pong_handler at the dialler does to its record n. */
  function PongNode(n: Node, l: Link, c: nat, draw: nat): Node {
    if l.d.terminated || !n.state.Disconnected? then n
    else
      var m := n.(nonce := GetNonce(n, draw), outbound := c, replaced := n.replaced - {c as int});
      if m.nonce < l.pong then Finish(m, c) else m
  }

  function PongLink(n: Node, l: Link, draw: nat): Link {
    if l.d.terminated || !n.state.Disconnected? then l.(pong := 0)
    else
      var r := GetNonce(n, draw);
      l.(pong := 0, used := r, d := l.d.(committed := r < l.pong))
  }

  function PongAsks(n: Node, i: nat, l: Link, c: nat, draw: nat): set<(int, nat)> {
    if l.d.terminated || !n.state.Disconnected? then {}
    else
      (if n.outbound >= 0 && n.outbound != c then {(n.outbound, i)} else {}) +
      (if GetNonce(n, draw) < l.pong then {} else {(c as int, i)})
  }

  function DoPong(s: State, c: nat, draw: nat): State
    requires Typed(s) && c < |s.links|
  {
    var l := s.links[c];
    var n := s.nodes[l.dialler];
    s.(nodes := s.nodes[l.dialler := PongNode(n, l, c, draw)], links := s.links[c := PongLink(n, l, draw)],
       asked := s.asked + PongAsks(n, l.dialler, l, c, draw))
  }

  function DoTerminate(s: State, c: nat, i: nat): State
    requires c < |s.links|
  {
    var l := s.links[c];
    s.(links := s.links[c := WithEnd(l, i, EndOf(l, i).(terminated := true))])
  }

  /** on_dispatcher_teardown */
  function DoTeardown(s: State, c: nat, i: nat, retry: bool): State
    requires Typed(s) && c < |s.links| && i < 2
  {
    var l, n := s.links[c], s.nodes[i];
    var links := s.links[c := WithEnd(l, i, EndOf(l, i).(torn := true))];
    if c !in n.mine then s.(links := links)
    else
      var m := if n.state.Disconnected? then n else n.(state := Disconnected, outbound := -1);
      if n.preempt != 0 then
        s.(nodes := s.nodes[i := m.(preempt := 0, inbound := -1)],
           links := if 0 <= n.inbound < |links| then links[n.inbound := links[n.inbound].(ping := n.preempt)]
               else links)
      else s.(nodes := s.nodes[i := m.(inbound := -1, nonce := if retry then 0 else PASSIVE)], links := links)
  }

  function DoConnPeer(s: State, i: nat): State
    requires i < |s.nodes|
  {
    var n := s.nodes[i];
    var m := n.(inbound := -1, outbound := -1, nonce := 0, replaced := n.replaced + Outbound(n));
    if n.state.Connected? then s.(nodes := s.nodes[i := m.(state := Reset)], asked := s.asked + {(n.conn, i)})
    else s.(nodes := s.nodes[i := m])
  }

  // ----- the source's asserts, and a null dereference -----

  /** The Ping handler asserts that a stale inbound connection has no peer. */
  predicate PingAssert(s: State, c: nat)
    requires Typed(s) && c < |s.links|
  {
    var l := s.links[c];
    var n := s.nodes[1 - l.dialler];
    !l.r.terminated && n.state.Disconnected? && n.inbound >= 0 && n.inbound != c ==> n.inbound !in n.mine
  }

  /** The Pong handler asserts the same of a stale outbound connection. */
  predicate PongAssert(s: State, c: nat)
    requires Typed(s) && c < |s.links|
  {
    var l := s.links[c];
    var n := s.nodes[l.dialler];
    !l.d.terminated && n.state.Disconnected? && n.outbound >= 0 && n.outbound != c ==> n.outbound !in n.mine
  }

  /** finish_handshake asserts that the record's previous connection is terminated. */
  predicate FinishAssert(s: State, i: nat)
    requires Typed(s) && i < 2
  {
    var n := s.nodes[i];
    n.state.Disconnected? && 0 <= n.conn < |s.links| ==> EndOf(s.links[n.conn], i).terminated
  }

  /** Teardown of a connection with a peer asserts that it is the peer's connection, unless disconnected. */
  predicate TeardownAssert(s: State, c: nat, i: nat)
    requires Typed(s) && i < 2
  {
    var n := s.nodes[i];
    c in n.mine && !n.state.Disconnected? ==> n.conn == c
  }

  /** Teardown hands a deferred Ping back to its handler with the inbound connection, which must be there. */
  predicate PreemptOk(s: State, c: nat, i: nat)
    requires Typed(s) && i < 2
  {
    var n := s.nodes[i];
    c in n.mine && n.preempt != 0 ==> n.inbound >= 0
  }

  /** When a step may be attempted. */
  predicate Enabled(s: State, a: Act)
    requires Typed(s)
  {
    match a
    case Dial(i) => i < 2 && s.nodes[i].addr && s.nodes[i].state.Disconnected?
    case Setup(c, draw) => c < |s.links| && s.links[c].sent == 0 && Drawn(draw)
    case RecvPing(c, draw) => c < |s.links| && s.links[c].ping != 0 && Drawn(draw)
    case RecvPong(c, draw) => c < |s.links| && s.links[c].pong != 0 && Drawn(draw)
    case Terminate(c, i) => c < |s.links| && i < 2
    case Teardown(c, i, _) => c < |s.links| && i < 2 && EndOf(s.links[c], i).terminated && !EndOf(s.links[c], i).torn
    case ConnPeer(i) => i < 2 && s.nodes[i].addr
  }

  /** The step meets every assert of the source on its way; otherwise the process aborts. */
  predicate Asserts(s: State, a: Act)
    requires Typed(s) && Enabled(s, a)
  {
    match a
    case RecvPing(c, _) => PingAssert(s, c) && FinishAssert(s, 1 - s.links[c].dialler)
    case RecvPong(c, _) => PongAssert(s, c) && FinishAssert(s, s.links[c].dialler)
    case Teardown(c, i, _) => TeardownAssert(s, c, i) && PreemptOk(s, c, i)
    case _ => true
  }

  function After(s: State, a: Act): State
    requires Typed(s) && Enabled(s, a)
  {
    match a
    case Dial(i) => DoDial(s, i)
    case Setup(c, draw) => DoSetup(s, c, draw)
    case RecvPing(c, draw) => DoPing(s, c, draw)
    case RecvPong(c, draw) => DoPong(s, c, draw)
    case Terminate(c, i) => DoTerminate(s, c, i)
    case Teardown(c, i, retry) => DoTeardown(s, c, i, retry)
    case ConnPeer(i) => DoConnPeer(s, i)
  }

  predicate Next(s: State, a: Act, s': State) {
    Typed(s) && Enabled(s, a) && Asserts(s, a) && s' == After(s, a)
  }

  function Fresh(addr: bool): Node { Node(addr, Disconnected, PASSIVE, -1, -1, -1, 0, {}, {}, {}) }

  predicate Init(s: State) {
    exists a0, a1 :: s == State([Fresh(a0), Fresh(a1)], [], {})
  }

  predicate IsRun(states: seq<State>, acts: seq<Act>) {
    |states| == |acts| + 1 && Init(states[0]) && forall k :: 0 <= k < |acts| ==> Next(states[k], acts[k], states[k + 1])
  }

  // ----- invariant -----

  predicate NodeOk(n: Node, i: nat, links: seq<Link>) {
    && -1 <= n.conn < |links| && -1 <= n.inbound < |links| && -1 <= n.outbound < |links|
    && (n.outbound >= 0 ==> links[n.outbound].dialler == i && n.outbound != n.conn)
    && (n.inbound >= 0 ==> links[n.inbound].dialler != i && n.inbound !in n.mine)
    && (!n.state.Disconnected? ==> n.outbound == -1 && n.conn >= 0)
    && (n.state.Disconnected? && n.conn >= 0 ==> EndOf(links[n.conn], i).terminated)
    && (n.preempt != 0 ==> !n.state.Disconnected? && (n.state.Connected? ==> n.inbound >= 0))
    && (n.preempt != 0 && n.inbound >= 0 ==> Deferred(links[n.inbound], n.preempt))
    && (n.state.Reset? ==> n.inbound == -1)
    && (forall c :: c in n.mine ==> InMine(n, i, links, c))
    && n.replaced <= n.mine && n.conn !in n.replaced && n.outbound !in n.replaced && n.mine !! n.abandoned
    && (forall c :: c in n.abandoned ==> c < |links|)
    && (n.conn >= 0 ==> n.conn in n.mine)
  }

  /** A connection with its peer is the record's own, or one it dialled and waits for or put aside. */
  predicate InMine(n: Node, i: nat, links: seq<Link>, c: int) {
    0 <= c < |links| && (c == n.conn || (links[c].dialler == i && (c == n.outbound || c in n.replaced)))
  }

  /** The connection's Ping was set aside. */
  predicate Deferred(l: Link, ping: nat) { l.sent == ping && l.ping == 0 && l.reply == 0 }

  predicate LinkOk(l: Link, c: int, dn: Node, rn: Node) {
    && dn.addr && (c in dn.mine || c in dn.abandoned)
    && (l.d.torn ==> l.d.terminated) && (l.r.torn ==> l.r.terminated)
    && (l.ping != 0 ==> l.ping == l.sent && l.reply == 0 && c !in rn.mine)
    && (l.sent == 0 ==> l.reply == 0 && l.ping == 0 && c !in rn.mine)
    && (l.pong != 0 ==> l.pong == l.reply && !l.d.committed)
    && (l.d.committed ==> l.used < l.reply)
    && (l.r.committed <==> l.reply != 0 && (l.sent < l.reply || !rn.addr))
  }

  predicate Inv(s: State) {
    && Typed(s) && NodeOk(s.nodes[0], 0, s.links) && NodeOk(s.nodes[1], 1, s.links)
    && forall c :: 0 <= c < |s.links| ==> At(s, c)
  }

  predicate At(s: State, c: nat)
    requires Typed(s) && c < |s.links|
  {
    LinkOk(s.links[c], c, s.nodes[s.links[c].dialler], s.nodes[1 - s.links[c].dialler])
  }

  // ----- every step keeps the invariant -----

  /** A step by node i that changes its record to n and connection c to l. */
  predicate Changed(s: State, s': State, i: nat, n: Node, c: nat, l: Link)
    requires Typed(s) && i < 2 && c < |s.links|
  {
    && s'.nodes == s.nodes[i := n] && s'.links == s.links[c := l]
    && n.addr == s.nodes[i].addr && n.mine <= s.nodes[i].mine + {c as int}
    && s.nodes[i].mine + s.nodes[i].abandoned <= n.mine + n.abandoned
    && l.dialler == s.links[c].dialler
  }

  /** What node i's record may rely on about a connection. */
  predicate Steady(was: Link, l: Link, i: nat) {
    && l.dialler == was.dialler
    && (EndOf(was, i).terminated ==> EndOf(l, i).terminated)
    && (was.sent != 0 && Deferred(was, was.sent) && was.dialler != i ==> Deferred(l, was.sent))
  }

  lemma NodeKept(n: Node, i: nat, links: seq<Link>, c: nat, l: Link)
    requires NodeOk(n, i, links) && c < |links| && Steady(links[c], l, i)
    ensures NodeOk(n, i, links[c := l])
  {
  }

  lemma OneStep(s: State, s': State, i: nat, n: Node, c: nat, l: Link)
    requires Inv(s) && i < 2 && c < |s.links| && Changed(s, s', i, n, c, l) && Steady(s.links[c], l, 1 - i)
    requires NodeOk(n, i, s'.links)
    requires if l.dialler == i then LinkOk(l, c, n, s.nodes[1 - i]) else LinkOk(l, c, s.nodes[1 - i], n)
    ensures Inv(s')
  {
    NodeKept(s.nodes[1 - i], 1 - i, s.links, c, l);
    assert Typed(s');
    forall k | 0 <= k < |s'.links| ensures At(s', k) {
      assert At(s, k);
      OtherLink(s, s', i, n, c, l, k);
    }
  }

  lemma OtherLink(s: State, s': State, i: nat, n: Node, c: nat, l: Link, k: nat)
    requires Typed(s) && Typed(s') && i < 2 && c < |s.links| && k < |s.links| && Changed(s, s', i, n, c, l) && At(s, k)
    requires if l.dialler == i then LinkOk(l, c, n, s.nodes[1 - i]) else LinkOk(l, c, s.nodes[1 - i], n)
    ensures At(s', k)
  {
  }

  lemma PingNodeOk(n: Node, i: nat, links: seq<Link>, c: nat, draw: nat)
    requires NodeOk(n, i, links) && c < |links|
    requires var l := links[c]; l.dialler != i && l.ping != 0 && l.ping == l.sent && l.reply == 0 && c !in n.mine
    ensures NodeOk(PingNode(n, links[c], c, draw), i, links[c := PingLink(n, links[c], draw)])
  {
  }

  lemma PongNodeOk(n: Node, i: nat, links: seq<Link>, c: nat, draw: nat)
    requires NodeOk(n, i, links) && c < |links| && links[c].dialler == i
    requires !links[c].d.terminated && n.state.Disconnected? && n.outbound >= 0 && n.outbound != c ==>
             n.outbound !in n.mine
    ensures NodeOk(PongNode(n, links[c], c, draw), i, links[c := PongLink(n, links[c], draw)])
  {
  }

  lemma DialInv(s: State, i: nat)
    requires Inv(s) && Enabled(s, Dial(i))
    ensures Inv(DoDial(s, i))
  {
    var s' := DoDial(s, i);
    assert Typed(s');
    forall c | 0 <= c < |s'.links| ensures At(s', c) {
      if c < |s.links| { assert At(s, c); }
      DialAt(s, i, c);
    }
  }

  lemma DialAt(s: State, i: nat, c: nat)
    requires Typed(s) && Enabled(s, Dial(i)) && c <= |s.links| && Typed(DoDial(s, i))
    requires c < |s.links| ==> At(s, c)
    requires |s.links| !in s.nodes[0].mine && |s.links| !in s.nodes[1].mine
    ensures At(DoDial(s, i), c)
  {
  }

  lemma SetupNodeOk(n: Node, i: nat, links: seq<Link>, c: nat, nonce: nat, l: Link)
    requires NodeOk(n, i, links) && c < |links| && Steady(links[c], l, i)
    ensures NodeOk(n.(nonce := nonce), i, links[c := l])
  {
    NodeKept(n, i, links, c, l);
  }

  lemma SetupInv(s: State, c: nat, draw: nat)
    requires Inv(s) && Enabled(s, Setup(c, draw))
    ensures Inv(DoSetup(s, c, draw))
  {
    var s', i := DoSetup(s, c, draw), s.links[c].dialler;
    assert At(s, c);
    SetupNodeOk(s.nodes[i], i, s.links, c, s'.nodes[i].nonce, s'.links[c]);
    OneStep(s, s', i, s'.nodes[i], c, s'.links[c]);
  }

  lemma PingInv(s: State, c: nat, draw: nat)
    requires Inv(s) && Enabled(s, RecvPing(c, draw))
    ensures Inv(DoPing(s, c, draw))
  {
    var s', i := DoPing(s, c, draw), 1 - s.links[c].dialler;
    assert At(s, c);
    PingNodeOk(s.nodes[i], i, s.links, c, draw);
    OneStep(s, s', i, s'.nodes[i], c, s'.links[c]);
  }

  lemma PongInv(s: State, c: nat, draw: nat)
    requires Inv(s) && Enabled(s, RecvPong(c, draw)) && PongAssert(s, c)
    ensures Inv(DoPong(s, c, draw))
  {
    var s', i := DoPong(s, c, draw), s.links[c].dialler;
    assert At(s, c);
    PongNodeOk(s.nodes[i], i, s.links, c, draw);
    OneStep(s, s', i, s'.nodes[i], c, s'.links[c]);
  }

  /** Node i's end of connection c ends, or is torn down. */
  lemma EndInv(s: State, c: nat, i: nat, e: End)
    requires Inv(s) && c < |s.links| && i < 2 && e.terminated && e.committed == EndOf(s.links[c], i).committed
    ensures Inv(s.(links := s.links[c := WithEnd(s.links[c], i, e)]))
  {
    var l := WithEnd(s.links[c], i, e);
    var s' := s.(links := s.links[c := l]);
    assert At(s, c);
    NodeKept(s.nodes[i], i, s.links, c, l);
    assert s'.nodes == s.nodes[i := s.nodes[i]];
    OneStep(s, s', i, s.nodes[i], c, l);
  }

  /** The rest of a teardown, once the end is marked. */
  lemma TornNodeOk(n: Node, i: nat, links: seq<Link>, c: nat, nonce: nat)
    requires NodeOk(n, i, links) && c < |links| && EndOf(links[c], i).terminated
    requires n.conn == c || n.state.Disconnected?
    ensures NodeOk(n.(state := Disconnected, outbound := if n.state.Disconnected? then n.outbound else -1,
                      preempt := 0, inbound := -1, nonce := nonce), i, links)
  {
  }

  /** A deferred Ping goes back to its connection. */
  lemma RequeueInv(t: State, i: nat, n: Node)
    requires Inv(t) && i < 2
    requires t.nodes[i].preempt != 0 && t.nodes[i].inbound >= 0 && n.inbound == -1
    requires n.addr == t.nodes[i].addr && n.mine == t.nodes[i].mine && n.abandoned == t.nodes[i].abandoned
    requires NodeOk(n, i, t.links) && n.preempt == 0
    ensures var m := t.nodes[i];
      Inv(t.(nodes := t.nodes[i := n], links := t.links[m.inbound := t.links[m.inbound].(ping := m.preempt)]))
  {
    var m := t.nodes[i];
    var k := m.inbound;
    var l := t.links[k].(ping := m.preempt);
    assert At(t, k);
    OneStep(t, t.(nodes := t.nodes[i := n], links := t.links[k := l]), i, n, k, l);
  }

  lemma TeardownInv(s: State, c: nat, i: nat, retry: bool)
    requires Inv(s) && Enabled(s, Teardown(c, i, retry)) && TeardownAssert(s, c, i) && PreemptOk(s, c, i)
    ensures Inv(DoTeardown(s, c, i, retry))
  {
    var s', n := DoTeardown(s, c, i, retry), s.nodes[i];
    var e := EndOf(s.links[c], i).(torn := true);
    var t := s.(links := s.links[c := WithEnd(s.links[c], i, e)]);
    EndInv(s, c, i, e);
    if c in n.mine { TornInv(t, c, i, s'.nodes[i].nonce, s'); }
  }

  /** The record's part of a teardown. */
  lemma TornInv(t: State, c: nat, i: nat, nonce: nat, s': State)
    requires Inv(t) && i < 2 && c < |t.links| && EndOf(t.links[c], i).terminated && c in t.nodes[i].mine
    requires t.nodes[i].conn == c || t.nodes[i].state.Disconnected?
    requires var n := t.nodes[i];
      var m := if n.state.Disconnected? then n else n.(state := Disconnected, outbound := -1);
      if n.preempt != 0 then
        n.inbound >= 0 && s' == t.(nodes := t.nodes[i := m.(preempt := 0, inbound := -1)],
                                   links := t.links[n.inbound := t.links[n.inbound].(ping := n.preempt)])
      else s' == t.(nodes := t.nodes[i := m.(inbound := -1, nonce := nonce)])
    ensures Inv(s')
  {
    var n := t.nodes[i];
    if n.preempt != 0 {
      TornNodeOk(n, i, t.links, c, n.nonce);
      RequeueInv(t, i, s'.nodes[i]);
    } else {
      TornNodeOk(n, i, t.links, c, nonce);
      RecordInv(t, i, s'.nodes[i], t.asked);
    }
  }

  /** Only node i's record changes. */
  lemma RecordInv(s: State, i: nat, n: Node, asked: set<(int, nat)>)
    requires Inv(s) && i < 2 && NodeOk(n, i, s.links)
    requires n.addr == s.nodes[i].addr && n.mine == s.nodes[i].mine && n.abandoned == s.nodes[i].abandoned
    ensures Inv(State(s.nodes[i := n], s.links, asked))
  {
    var s' := State(s.nodes[i := n], s.links, asked);
    forall k | 0 <= k < |s'.links| ensures At(s', k) { assert At(s, k); }
  }

  lemma ConnPeerInv(s: State, i: nat)
    requires Inv(s) && Enabled(s, ConnPeer(i))
    ensures Inv(DoConnPeer(s, i))
  {
    var s' := DoConnPeer(s, i);
    RecordInv(s, i, s'.nodes[i], s'.asked);
  }

  lemma StepKeepsInv(s: State, a: Act, s': State)
    requires Inv(s) && Next(s, a, s')
    ensures Inv(s')
  {
    match a
    case Dial(i) => DialInv(s, i);
    case Setup(c, draw) => SetupInv(s, c, draw);
    case RecvPing(c, draw) => PingInv(s, c, draw);
    case RecvPong(c, draw) => PongInv(s, c, draw);
    case Terminate(c, i) => EndInv(s, c, i, EndOf(s.links[c], i).(terminated := true));
    case Teardown(c, i, retry) => TeardownInv(s, c, i, retry);
    case ConnPeer(i) => ConnPeerInv(s, i);
  }

  lemma {:induction false} RunInv(states: seq<State>, acts: seq<Act>, k: nat)
    requires IsRun(states, acts) && k < |states|
    ensures Inv(states[k])
  {
    if k > 0 {
      RunInv(states, acts, k - 1);
      assert Next(states[k - 1], acts[k - 1], states[k - 1 + 1]);
      StepKeepsInv(states[k - 1], acts[k - 1], states[k]);
    }
  }

  // ----- agreement on one connection -----

  /**
   * In every run, when the dialler commits to a connection with the nonce its Ping carried, the responder has
   * committed to the same connection before.
   */
  lemma DiallerAfterResponder(states: seq<State>, acts: seq<Act>, k: nat, c: nat)
    requires IsRun(states, acts) && k < |acts| && c < |states[k].links| && c < |states[k + 1].links|
    requires !states[k].links[c].d.committed && states[k + 1].links[c].d.committed
    requires states[k + 1].links[c].used == states[k + 1].links[c].sent
    ensures states[k].links[c].r.committed
  {
    RunInv(states, acts, k);
    RunInv(states, acts, k + 1);
    assert Next(states[k], acts[k], states[k + 1]);
    CommitIsAPong(states[k], acts[k], c);
    assert At(states[k + 1], c);
  }

  lemma CommitIsAPong(s: State, a: Act, c: nat)
    requires Typed(s) && Enabled(s, a) && c < |s.links| && c < |After(s, a).links|
    requires !s.links[c].d.committed && After(s, a).links[c].d.committed
    ensures After(s, a).links[c].r == s.links[c].r
  {
  }

  /**
   * In every run, the dialler commits alone exactly where its nonce fell, between its Ping and the Pong, below the
   * responder's nonce that the Ping had not been below, and the responder knew the dialler's address.
   */
  lemma AloneExactly(states: seq<State>, acts: seq<Act>, k: nat, c: nat)
    requires IsRun(states, acts) && k < |states| && Typed(states[k]) && c < |states[k].links|
    ensures var l := states[k].links[c];
      l.d.committed ==> (!l.r.committed <==> l.used < l.reply <= l.sent && states[k].nodes[1 - l.dialler].addr)
  {
    RunInv(states, acts, k);
    assert At(states[k], c);
  }

  // ----- the asserts -----

  /** The Pong handler gets as far as its assert. */
  predicate PongJudged(s: State, c: nat)
    requires Typed(s) && c < |s.links|
  {
    !s.links[c].d.terminated && s.nodes[s.links[c].dialler].state.Disconnected?
  }

  /**
   * Which asserts hold, exactly, in every run.  Those of the Ping handler and of finish_handshake always do.  The
   * teardown assert fails for a connection that was replaced, while the node is connected.  The Pong handler's fails
   * for a connection that was replaced or abandoned, while a dial is outstanding that was not itself abandoned.
   * A deferred Ping has lost its connection if conn_peer came in between.
   */
  lemma AssertsInEveryRun(states: seq<State>, acts: seq<Act>, k: nat, c: nat, i: nat)
    requires IsRun(states, acts) && k < |states| && Typed(states[k]) && c < |states[k].links| && i < 2
    ensures var s := states[k];
      && PingAssert(s, c) && FinishAssert(s, i)
      && (!TeardownAssert(s, c, i) <==> c in s.nodes[i].replaced && !s.nodes[i].state.Disconnected?)
      && (!PreemptOk(s, c, i) <==> c in s.nodes[i].mine && s.nodes[i].preempt != 0 && s.nodes[i].state.Reset?)
    ensures var s := states[k];
      var n := s.nodes[s.links[c].dialler];
      !PongAssert(s, c) <==>
        PongJudged(s, c) && (c in n.replaced || c in n.abandoned) && n.outbound >= 0 && n.outbound !in n.abandoned
  {
    RunInv(states, acts, k);
    InvAsserts(states[k], c, i);
    InvPongAssert(states[k], c);
  }

  lemma InvAsserts(s: State, c: nat, i: nat)
    requires Inv(s) && c < |s.links| && i < 2
    ensures PingAssert(s, c) && FinishAssert(s, i)
    ensures !TeardownAssert(s, c, i) <==> c in s.nodes[i].replaced && !s.nodes[i].state.Disconnected?
    ensures !PreemptOk(s, c, i) <==> c in s.nodes[i].mine && s.nodes[i].preempt != 0 && s.nodes[i].state.Reset?
  {
    assert At(s, c);
    assert NodeOk(s.nodes[0], 0, s.links) && NodeOk(s.nodes[1], 1, s.links);
  }

  lemma InvPongAssert(s: State, c: nat)
    requires Inv(s) && c < |s.links|
    ensures var n := s.nodes[s.links[c].dialler];
      !PongAssert(s, c) <==>
        PongJudged(s, c) && (c in n.replaced || c in n.abandoned) && n.outbound >= 0 && n.outbound !in n.abandoned
  {
    var i := s.links[c].dialler;
    var n := s.nodes[i];
    assert At(s, c);
    assert NodeOk(s.nodes[0], 0, s.links) && NodeOk(s.nodes[1], 1, s.links);
    if n.outbound >= 0 { assert At(s, n.outbound); }
  }

  /** No dial and no conn_peer between an earlier dial of the same node and the teardown of its connection. */
  predicate Patient(s: State, a: Act)
    requires Typed(s)
  {
    match a
    case Dial(i) => i < 2 ==> OutboundOver(s, i)
    case ConnPeer(i) => i < 2 ==> OutboundOver(s, i)
    case _ => true
  }

  predicate OutboundOver(s: State, i: nat)
    requires Typed(s) && i < 2
  {
    s.nodes[i].outbound == -1 || TornAt(s, s.nodes[i].outbound, i)
  }

  predicate TornAt(s: State, c: int, i: nat) { 0 <= c < |s.links| && EndOf(s.links[c], i).torn }

  predicate ReplacedTorn(s: State, i: nat)
    requires Typed(s) && i < 2
  {
    forall c :: c in s.nodes[i].replaced ==> TornAt(s, c, i)
  }

  /** Only the outbound connection gets replaced, by a dial or conn_peer of its node. */
  lemma NewlyReplaced(s: State, a: Act, c: int, i: nat)
    requires Inv(s) && Enabled(s, a) && i < 2 && |After(s, a).nodes| == 2
    requires c in After(s, a).nodes[i].replaced && c !in s.nodes[i].replaced
    ensures (a == Dial(i) || a == ConnPeer(i)) && c == s.nodes[i].outbound >= 0
  {
    assert -1 !in s.nodes[i].mine;
  }

  lemma PatientStep(s: State, a: Act, i: nat)
    requires Inv(s) && Enabled(s, a) && Patient(s, a) && i < 2 && Typed(After(s, a)) && ReplacedTorn(s, i)
    ensures ReplacedTorn(After(s, a), i)
  {
    forall c | c in After(s, a).nodes[i].replaced
      ensures TornAt(After(s, a), c, i)
    {
      if c !in s.nodes[i].replaced { NewlyReplaced(s, a, c, i); }
    }
  }

  lemma {:induction false} PatientReplacedTorn(states: seq<State>, acts: seq<Act>, k: nat, i: nat)
    requires IsRun(states, acts) && k < |states| && i < 2
    requires forall j :: 0 <= j < k ==> Typed(states[j]) && Patient(states[j], acts[j])
    ensures Typed(states[k]) && ReplacedTorn(states[k], i)
  {
    RunInv(states, acts, k);
    if k > 0 {
      PatientReplacedTorn(states, acts, k - 1, i);
      assert Next(states[k - 1], acts[k - 1], states[k - 1 + 1]);
      RunInv(states, acts, k - 1);
      PatientStep(states[k - 1], acts[k - 1], i);
    }
  }

  /** In a run of patient nodes every teardown that can happen meets its assert. */
  lemma PatientTeardownsHold(states: seq<State>, acts: seq<Act>, k: nat, c: nat, i: nat, retry: bool)
    requires IsRun(states, acts) && k < |states|
    requires forall j :: 0 <= j < k ==> Typed(states[j]) && Patient(states[j], acts[j])
    requires Typed(states[k]) && Enabled(states[k], Teardown(c, i, retry))
    ensures TeardownAssert(states[k], c, i)
  {
    PatientReplacedTorn(states, acts, k, i);
    RunInv(states, acts, k);
    InvAsserts(states[k], c, i);
    assert c in states[k].nodes[i].replaced ==> TornAt(states[k], c, i);
  }

  // ----- runs that go wrong -----

  ghost predicate Reachable(s: State) {
    exists states, acts :: IsRun(states, acts) && states[|acts|] == s
  }

  lemma ReachInit(a0: bool, a1: bool)
    ensures Reachable(State([Fresh(a0), Fresh(a1)], [], {}))
  {
    assert IsRun([State([Fresh(a0), Fresh(a1)], [], {})], []);
  }

  lemma Reach(s: State, a: Act) returns (s': State)
    requires Reachable(s) && Typed(s) && Enabled(s, a) && Asserts(s, a)
    ensures Reachable(s') && s' == After(s, a)
  {
    s' := After(s, a);
    var states, acts :| IsRun(states, acts) && states[|acts|] == s;
    var states', acts' := states + [s'], acts + [a];
    forall k | 0 <= k < |acts'| ensures Next(states'[k], acts'[k], states'[k + 1]) {
      if k < |acts| { assert Next(states[k], acts[k], states[k + 1]); }
    }
    assert IsRun(states', acts') && states'[|acts'|] == s';
  }

  /** A step of a concrete run, with the state it leads to. */
  lemma Go(s: State, a: Act, s': State)
    requires Reachable(s) && Typed(s) && Enabled(s, a) && Asserts(s, a) && After(s, a) == s'
    ensures Reachable(s')
  {
    var _ := Reach(s, a);
  }

  const UP := End(false, false, false)
  const COMMITTED := End(false, false, true)

  /** A disconnected record with an address. */
  function Idle(nonce: nat, inbound: int, outbound: int, mine: set<int>): Node {
    Node(true, Disconnected, nonce, -1, inbound, outbound, 0, mine, {}, {})
  }

  /** Node 0 has dialled and sent a Ping with nonce 5; node 1 is passive. */
  const DIALLED := State([Idle(5, -1, 0, {0}), Fresh(true)], [Link(0, UP, UP, 5, 0, 5, 0, 0)], {})

  lemma ReachDialled()
    ensures Reachable(DIALLED)
  {
    ReachInit(true, true);
    var s0 := State([Fresh(true), Fresh(true)], [], {});
    var s1 := s0.(nodes := [Idle(0, -1, -1, {}), Fresh(true)]);
    assert DoConnPeer(s0, 0).nodes[0].replaced == {};
    Go(s0, ConnPeer(0), s1);
    var s2 := State([Idle(0, -1, 0, {0}), Fresh(true)], [Link(0, UP, UP, 0, 0, 0, 0, 0)], {});
    assert DoDial(s1, 0).asked == {} && DoDial(s1, 0).nodes[0].replaced == {} && DoDial(s1, 0).nodes[0].mine == {0};
    Go(s1, Dial(0), s2);
    Go(s2, Setup(0, 5), DIALLED);
  }

  /** Node 1 drew 3 and refused. */
  const REFUSED := State([Idle(5, -1, 0, {0}), Idle(3, 0, -1, {})], [Link(0, UP, UP, 0, 3, 5, 3, 0)], {(0, 1)})

  lemma ReachRefused()
    ensures Reachable(REFUSED)
  {
    ReachDialled();
    var s := DIALLED.(nodes := [Idle(5, -1, 0, {0}), Idle(0, -1, -1, {})]);
    assert DoConnPeer(DIALLED, 1).nodes[1].replaced == {};
    Go(DIALLED, ConnPeer(1), s);
    Go(s, RecvPing(0, 3), REFUSED);
  }

  /** A conn_peer between Ping and Pong redraws the nonce, and the dialler commits to what the responder refused. */
  lemma RedrawnNonceDisagrees() returns (s: State)
    ensures Reachable(s) && |s.links| == 1 && s.links[0].d.committed && !s.links[0].r.committed && (0, 1) in s.asked
  {
    ReachRefused();
    s := REFUSED.(nodes := [Idle(0, -1, -1, {0}).(replaced := {0}), Idle(3, 0, -1, {})]);
    assert DoConnPeer(REFUSED, 0).nodes[0].replaced == {0};
    Go(REFUSED, ConnPeer(0), s);
    s := Reach(s, RecvPong(0, 1));
  }

  /** Node 1 has committed to connection 0, which it did not dial. */
  function Taken(): Node { Node(true, Connected, PASSIVE, 0, -1, -1, 0, {0}, {}, {-1}) }

  /** Node 1 accepted, and its Pong is on the way when node 0's retry timer dials again. */
  const REDIALLED := State([Idle(5, -1, 1, {0, 1}).(replaced := {0}), Taken()],
                           [Link(0, UP, COMMITTED, 0, PASSIVE, 5, PASSIVE, 0), Link(0, UP, UP, 0, 0, 0, 0, 0)],
                               {(0, 0)})

  lemma ReachRedialled()
    ensures Reachable(REDIALLED)
  {
    ReachDialled();
    var s := State([Idle(5, -1, 0, {0}), Taken()], REDIALLED.links[..1], {});
    var t := DoPing(DIALLED, 0, 1);
    assert t.asked == {} && t.nodes[1].mine == {0} && t.nodes[1].replaced == {} && t.nodes[1].abandoned == {-1};
    Go(DIALLED, RecvPing(0, 1), s);
    var u := DoDial(s, 0);
    assert u.asked == {(0, 0)} && u.nodes[0].replaced == {0} && u.nodes[0].mine == {0, 1};
    Go(s, Dial(0), REDIALLED);
  }

  /** A Pong on a connection the retry timer replaced meets the assert of the Pong handler, and fails it. */
  lemma SupersededPongAborts()
    ensures Reachable(REDIALLED) && Enabled(REDIALLED, RecvPong(0, 1)) && !Asserts(REDIALLED, RecvPong(0, 1))
  {
    ReachRedialled();
  }

  /** conn_peer while a Ping is deferred drops its connection, and the teardown dereferences it. */
  lemma PreemptThenReconnectCrashes() returns (s: State)
    ensures Reachable(s) && Typed(s) && Enabled(s, Teardown(0, 1, true)) && !Asserts(s, Teardown(0, 1, true))
  {
    ReachRedialled();
    s := Reach(REDIALLED, Setup(1, 5));
    s := Reach(s, RecvPing(1, 1));
    s := Reach(s, ConnPeer(1));
    s := Reach(s, Terminate(0, 1));
  }

  /** Node 0's second dial was accepted before its first. */
  lemma ReachSecond() returns (s: State)
    ensures Reachable(s) && Typed(s) && |s.links| == 2 && s.nodes[0] == Idle(5, -1, 1, {0, 1}).(replaced := {0})
    ensures s.links[0].dialler == 0 && s.links[0].d == UP && s.links[1]
            == Link(0, UP, COMMITTED, 0, PASSIVE, 5, PASSIVE, 0)
  {
    ReachDialled();
    s := Reach(DIALLED, Dial(0));
    assert s.nodes[0].mine == {0, 1} && s.nodes[0].replaced == {0};
    s := Reach(s, Setup(1, 5));
    s := Reach(s, RecvPing(1, 1));
  }

  /** A replaced connection torn down after the node connected through its successor fails the teardown assert. */
  lemma ReplacedTeardownAborts() returns (s: State)
    ensures Reachable(s) && Typed(s) && Enabled(s, Teardown(0, 0, true)) && !Asserts(s, Teardown(0, 0, true))
  {
    s := ReachSecond();
    s := Reach(s, RecvPong(1, 1));
    s := Reach(s, Terminate(0, 0));
  }

  /** Nodes 0 and 1 dialled each other with nonces 5 and 3; node 1 refused connection 0, whose Pong is on its way. */
  lemma ReachCrossed() returns (s: State)
    ensures Reachable(s) && Typed(s) && |s.links| == 2 && s.nodes[0] == Idle(5, -1, 0, {0})
    ensures s.links[0] == Link(0, UP, UP, 0, 3, 5, 3, 0) && s.links[1] == Link(1, UP, UP, 3, 0, 3, 0, 0)
  {
    ReachRefused();
    s := Reach(REFUSED, Dial(1));
    s := Reach(s, Setup(1, 1));
  }

  /** Node 0 commits to connection 1 and so abandons connection 0; then it loses connection 1. */
  lemma ReachAbandoned() returns (s: State)
    ensures Reachable(s) && Typed(s) && |s.links| == 2 && s.links[0] == Link(0, UP, UP, 0, 3, 5, 3, 0)
    ensures s.nodes[0].addr && s.nodes[0].state.Disconnected? && s.nodes[0].outbound == -1
    ensures s.nodes[0].replaced == {} && 0 in s.nodes[0].abandoned
  {
    s := ReachCrossed();
    s := Reach(s, RecvPing(1, 1));
    assert s.nodes[0].mine == {1} && s.nodes[0].replaced == {};
    s := Reach(s, Terminate(1, 0));
    s := Reach(s, Teardown(1, 0, true));
  }

  /** The Pong of the abandoned connection arrives after the next dial, and fails the assert: nothing was replaced. */
  lemma AbandonedPongAborts() returns (s: State)
    ensures Reachable(s) && Typed(s) && s.nodes[0].replaced == {}
    ensures Enabled(s, RecvPong(0, 1)) && !Asserts(s, RecvPong(0, 1))
  {
    s := ReachAbandoned();
    assert -1 !in s.nodes[0].mine by { ReachableInv(s); }
    s := Reach(s, Dial(0));
  }

  lemma ReachableInv(s: State)
    requires Reachable(s)
    ensures Inv(s)
  {
    var states, acts :| IsRun(states, acts) && states[|acts|] == s;
    RunInv(states, acts, |acts|);
  }
}
