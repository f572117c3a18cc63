/**
 * Two nodes dial each other at once: node w on connection x with nonce p, the other on connection y with
 * nonce q, p <= q.  Each handles the other's Ping before the Pong it waits for, nothing is torn down and
 * nobody calls conn_peer in between.
 */
module Crossing {
  import opened Handshake

  datatype Round = Round(w: nat, x: nat, y: nat, p: nat, q: nat)

  /** A reachable state in which both Pings are on their way. */
  ghost predicate Start(s: State, r: Round) {
    && Inv(s) && r.w < 2 && r.x < |s.links| && r.y < |s.links| && 0 < r.p <= r.q
    && Dialled(s, r.w, r.x, r.p) && Dialled(s, 1 - r.w, r.y, r.q)
    && forall i :: (r.x, i) !in s.asked && (r.y, i) !in s.asked
  }

  predicate Dialled(s: State, i: nat, c: nat, nonce: nat)
    requires Typed(s) && i < 2 && c < |s.links|
  {
    var n, l := s.nodes[i], s.links[c];
    && n.addr && n.state.Disconnected? && n.nonce == nonce && n.outbound == c
    && l.dialler == i && l.sent == nonce && l.ping == nonce && l.pong == 0
    && !l.d.terminated && !l.r.terminated && !l.d.committed && !l.r.committed
  }

  predicate Step(s: State, a: Act, s': State, r: Round) {
    Next(s, a, s') &&
    match a
    case RecvPing(c, _) => c == r.x || c == r.y
    case RecvPong(c, _) => (c == r.x && r.y < |s.links| && s.links[r.y].ping == 0) ||
                           (c == r.y && r.x < |s.links| && s.links[r.x].ping == 0)
    case Terminate(c, i) => (c == r.x || c == r.y) && ((c, i) in s.asked || EndOf(s.links[c], 1 - i).terminated)
    case _ => false
  }

  ghost predicate IsRound(states: seq<State>, acts: seq<Act>, r: Round) {
    |states| == |acts| + 1 && Start(states[0], r) && forall k :: 0 <= k < |acts| ==>
        Step(states[k], acts[k], states[k + 1], r)
  }

  /** All four messages have been handled. */
  predicate Over(s: State, r: Round) {
    r.x < |s.links| && r.y < |s.links| &&
    s.links[r.x].ping == 0 && s.links[r.y].ping == 0 && s.links[r.x].pong == 0 && s.links[r.y].pong == 0
  }

  /** What the invariant says of two connections dialled by the two nodes. */
  lemma RoundFacts(s: State, w: nat, x: nat, y: nat)
    requires Inv(s) && w < 2 && x < |s.links| && y < |s.links| && s.links[x].dialler == w && s.links[y].dialler == 1 - w
    ensures x != y && s.nodes[w].inbound != x && s.nodes[1 - w].inbound != y
    ensures forall c :: c == x || c == y ==> var l := s.links[c]; (l.ping != 0 ==> l.ping == l.sent && l.reply == 0)
    ensures forall c :: c == x || c == y ==> var l := s.links[c]; (l.pong != 0 ==> l.pong == l.reply && l.ping == 0)
  {
    assert At(s, x) && At(s, y);
    assert NodeOk(s.nodes[0], 0, s.links) && NodeOk(s.nodes[1], 1, s.links);
  }

  // ----- different nonces -----

  ghost predicate Winning(s: State, r: Round) {
    && Inv(s) && r.w < 2 && r.x < |s.links| && r.y < |s.links| && 0 < r.p < r.q
    && WinningLink(s.links[r.x], s.nodes[r.w], s.nodes[1 - r.w], r)
    && LosingLink(s.links[r.y], s.nodes[r.w], r)
    && (forall i :: (r.x, i) !in s.asked)
    && (s.links[r.y].ping != 0 ==> !s.links[r.y].d.terminated && !s.links[r.y].r.terminated)
    && (s.links[r.y].ping != 0 ==> forall i :: (r.y, i) !in s.asked)
  }

  predicate WinningLink(l: Link, nw: Node, nl: Node, r: Round) {
    && l.dialler == r.w && l.sent == r.p && !l.d.terminated && !l.r.terminated
    && nw.addr && nl.addr && nw.nonce == r.p && nl.nonce == r.q
    && (if l.ping != 0 then nl.state.Disconnected? && nl.outbound == r.y && !l.r.committed && l.reply == 0
        else nl.state.Connected? && nl.conn == r.x && l.r.committed && l.reply == r.q)
    && (if l.ping != 0 || l.pong != 0 then nw.state.Disconnected? && nw.outbound == r.x && !l.d.committed
        else nw.state.Connected? && nw.conn == r.x && l.d.committed)
  }

  predicate LosingLink(l: Link, nw: Node, r: Round) {
    && l.dialler == 1 - r.w && !l.d.committed && !l.r.committed && l.sent == r.q
    && (l.ping != 0 ==> nw.state.Disconnected?)
  }

  lemma WinningPingX(s: State, draw: nat, r: Round)
    requires Winning(s, r) && Typed(s) && s.links[r.x].ping == r.p && Inv(DoPing(s, r.x, draw)) && r.x != r.y
    requires s.nodes[1 - r.w].inbound != r.y
    ensures Winning(DoPing(s, r.x, draw), r)
  {
  }

  lemma WinningPingY(s: State, draw: nat, r: Round)
    requires Winning(s, r) && Typed(s) && s.links[r.y].ping == r.q && Inv(DoPing(s, r.y, draw)) && r.x != r.y
    requires s.nodes[r.w].inbound != r.x
    ensures Winning(DoPing(s, r.y, draw), r)
  {
  }

  lemma WinningPongX(s: State, draw: nat, r: Round)
    requires Winning(s, r) && Typed(s) && s.links[r.x].pong == r.q && Inv(DoPong(s, r.x, draw)) && r.x != r.y
    requires s.links[r.x].ping == 0 && s.links[r.y].ping == 0
    ensures Winning(DoPong(s, r.x, draw), r)
  {
  }

  lemma WinningPongY(s: State, draw: nat, r: Round)
    requires Winning(s, r) && Typed(s) && s.links[r.x].ping == 0 && Inv(DoPong(s, r.y, draw)) && r.x != r.y
    ensures Winning(DoPong(s, r.y, draw), r)
  {
  }

  lemma WinningTerminate(s: State, c: nat, i: nat, r: Round)
    requires Winning(s, r) && Typed(s) && (c == r.x || c == r.y) && i < 2 && Inv(DoTerminate(s, c, i)) && r.x != r.y
    requires (c, i) in s.asked || EndOf(s.links[c], 1 - i).terminated
    ensures Winning(DoTerminate(s, c, i), r)
  {
  }

  lemma WinningStep(s: State, a: Act, s': State, r: Round)
    requires Winning(s, r) && Step(s, a, s', r)
    ensures Winning(s', r)
  {
    StepKeepsInv(s, a, s');
    RoundFacts(s, r.w, r.x, r.y);
    match a
    case RecvPing(c, draw) =>
      if c == r.x { WinningPingX(s, draw, r); } else { WinningPingY(s, draw, r); }
    case RecvPong(c, draw) =>
      if c == r.x { WinningPongX(s, draw, r); } else { WinningPongY(s, draw, r); }
    case Terminate(c, i) => WinningTerminate(s, c, i, r);
  }

  // ----- equal nonces -----

  ghost predicate Tied(s: State, r: Round) {
    && Inv(s) && r.w < 2 && r.x < |s.links| && r.y < |s.links| && 0 < r.p == r.q
    && TiedLink(s.links[r.x], s.nodes[r.w], r.w, r.x, r.p, s.asked)
    && TiedLink(s.links[r.y], s.nodes[1 - r.w], 1 - r.w, r.y, r.p, s.asked)
  }

  /** Connection c, dialled by node i, is chosen by neither side, and refused by the other once handled. */
  predicate TiedLink(l: Link, n: Node, i: nat, c: nat, nonce: nat, asked: set<(int, nat)>) {
    && i < 2 && l.dialler == i && n.addr && n.nonce == nonce && n.state.Disconnected? && n.outbound == c
    && l.sent == nonce
    && !l.d.committed && !l.r.committed && (l.pong != 0 ==> l.pong == nonce)
    && (if l.ping != 0 then (c, i) !in asked && (c, 1 - i) !in asked && !l.d.terminated && !l.r.terminated
        else (c, 1 - i) in asked)
  }

  lemma TiedPing(s: State, c: nat, draw: nat, r: Round)
    requires Tied(s, r) && Typed(s) && (c == r.x || c == r.y) && r.x != r.y && Inv(DoPing(s, c, draw))
    requires s.links[c].ping == r.p && s.nodes[r.w].inbound != r.x && s.nodes[1 - r.w].inbound != r.y
    ensures Tied(DoPing(s, c, draw), r)
  {
  }

  lemma TiedPong(s: State, c: nat, draw: nat, r: Round)
    requires Tied(s, r) && Typed(s) && (c == r.x || c == r.y) && r.x != r.y && Inv(DoPong(s, c, draw))
    requires s.links[c].pong != 0 && s.links[c].ping == 0
    ensures Tied(DoPong(s, c, draw), r)
  {
  }

  lemma TiedTerminate(s: State, c: nat, i: nat, r: Round)
    requires Tied(s, r) && Typed(s) && (c == r.x || c == r.y) && i < 2 && Inv(DoTerminate(s, c, i)) && r.x != r.y
    requires (c, i) in s.asked || EndOf(s.links[c], 1 - i).terminated
    ensures Tied(DoTerminate(s, c, i), r)
  {
  }

  lemma TiedStep(s: State, a: Act, s': State, r: Round)
    requires Tied(s, r) && Step(s, a, s', r)
    ensures Tied(s', r)
  {
    StepKeepsInv(s, a, s');
    RoundFacts(s, r.w, r.x, r.y);
    match a
    case RecvPing(c, draw) => TiedPing(s, c, draw, r);
    case RecvPong(c, draw) => TiedPong(s, c, draw, r);
    case Terminate(c, i) => TiedTerminate(s, c, i, r);
  }

  // ----- every round -----

  ghost predicate RoundInv(s: State, r: Round) { if r.p < r.q then Winning(s, r) else Tied(s, r) }

  lemma StartInv(s: State, r: Round)
    requires Start(s, r)
    ensures RoundInv(s, r)
  {
    assert At(s, r.x) && At(s, r.y);
  }

  lemma {:induction false} EveryRound(states: seq<State>, acts: seq<Act>, r: Round, k: nat)
    requires IsRound(states, acts, r) && k < |states|
    ensures RoundInv(states[k], r)
  {
    if k == 0 {
      StartInv(states[0], r);
    } else {
      EveryRound(states, acts, r, k - 1);
      assert Step(states[k - 1], acts[k - 1], states[k - 1 + 1], r);
      if r.p < r.q {
        WinningStep(states[k - 1], acts[k - 1], states[k], r);
      } else {
        TiedStep(states[k - 1], acts[k - 1], states[k], r);
      }
    }
  }

  /**
   * In every crossing round neither node ever commits to the connection dialled by the larger nonce; once all the
   * messages are handled both are connected through the one dialled by the smaller nonce, and through neither
   * connection if the nonces are equal.
   */
  lemma SmallerNonceWins(states: seq<State>, acts: seq<Act>, r: Round, k: nat)
    requires IsRound(states, acts, r) && k < |states|
    ensures var s := states[k];
      && Typed(s) && r.w < 2 && r.x < |s.links| && r.y < |s.links|
      && !s.links[r.y].d.committed && !s.links[r.y].r.committed
      && (r.p < r.q && Over(s, r) ==>
            forall i :: 0 <= i < 2 ==>
              s.nodes[i].state.Connected? && s.nodes[i].conn == r.x && EndOf(s.links[r.x], i).committed)
      && (r.p == r.q ==> !s.links[r.x].d.committed && !s.links[r.x].r.committed)
      && (r.p == r.q ==> forall i :: 0 <= i < 2 ==> s.nodes[i].state.Disconnected?)
  {
    EveryRound(states, acts, r, k);
  }

  /** No step of a round meets a failing assert: as long as a message is pending and may be handled, it can be. */
  lemma RoundsDoNotAbort(states: seq<State>, acts: seq<Act>, r: Round, k: nat, c: nat, draw: nat)
    requires IsRound(states, acts, r) && k < |states| && (c == r.x || c == r.y) && Drawn(draw)
    ensures var s := states[k]; Typed(s) && c < |s.links|
    ensures var s := states[k];
      && (s.links[c].ping != 0 ==> Next(s, RecvPing(c, draw), DoPing(s, c, draw)))
      && (s.links[c].pong != 0 ==> Next(s, RecvPong(c, draw), DoPong(s, c, draw)))
  {
    EveryRound(states, acts, r, k);
    var s := states[k];
    InvAsserts(s, c, 0);
    InvAsserts(s, c, 1);
    PongsPass(s, r, c);
  }

  lemma PongsPass(s: State, r: Round, c: nat)
    requires RoundInv(s, r) && (c == r.x || c == r.y)
    ensures PongAssert(s, c)
  {
  }
}
