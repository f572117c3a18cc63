/**
 * The life of pooled connections in ConnPool (src/conn.cpp, include/salticidae/conn.h): the dispatcher adds
 * them, a worker is assigned and fed, termination is requested any number of times from any thread, and the
 * user is told of the beginning and the end.
 *
 * Each thread's call queue is kept per connection: the calls about one connection run in order, those about
 * different ones in any order, which covers every number of workers.
 */
module Teardown {
  datatype WorkerCall = Feed | Kill
  datatype DispCall = Setup | Del | DispKill

  /**
   * A connection with its pending calls.  Auxiliary: seen is what the user was told, deleted counts del_conn,
   * asked records that termination was requested, late that it was before a worker was assigned, killed that the
   * dispatcher's own call deleted it, and up that its setup succeeded.
   */
  datatype Conn = Conn(fd: int, worker: bool, terminated: bool, wq: seq<WorkerCall>, dq: seq<DispCall>, uq: seq<bool>,
                       seen: seq<bool>, deleted: nat, asked: bool, late: bool, killed: bool, up: bool)

  function Dels(dq: seq<DispCall>): nat {
    if dq == [] then 0 else (if dq[0].Del? then 1 else 0) + Dels(dq[1..])
  }

  lemma {:induction false} DelsAppend(dq: seq<DispCall>, d: DispCall)
    ensures Dels(dq + [d]) == Dels(dq) + if d.Del? then 1 else 0
  {
    if dq == [] {
      assert dq + [d] == [d] && [d][1..] == [];
    } else {
      assert (dq + [d])[1..] == dq[1..] + [d];
      DelsAppend(dq[1..], d);
    }
  }

  /** What the user was told and will be told so far. */
  function Told(c: Conn): seq<bool> { c.seen + c.uq }

  /** At most one true, then at most one false. */
  predicate AtMostOnceEach(told: seq<bool>) { told == [] || told == [true] || told == [false] || told == [true, false] }

  /** The dispatcher's calls: its own deletions come first, the setup before the deletion the worker asks for. */
  predicate InOrder(dq: seq<DispCall>) {
    dq == [] || dq == [Setup] || dq == [Del] || dq == [Setup, Del] || (dq[0].DispKill? && InOrder(dq[1..]))
  }

  predicate OnlyKills(dq: seq<DispCall>) { Setup !in dq && Del !in dq }

  /** How the calls of a connection stand to each other, and what the user is told. */
  predicate Ordered(c: Conn) {
    && InOrder(c.dq) && (DispKill in c.dq ==> c.late && !c.up)
    && (!c.worker ==> c.wq == [] && OnlyKills(c.dq) && !c.up && c.terminated == c.killed)
    && (Feed in c.wq ==> c.wq[0] == Feed && Feed !in c.wq[1..] && OnlyKills(c.dq) && !c.up && c.terminated == c.killed)
    && (Setup in c.dq ==> !c.up && (c.deleted == 1 ==> c.killed))
    && (c.killed ==> c.deleted == 1 && c.late)
    && (c.deleted == 1 && !c.killed ==> c.dq == [] && c.worker)
    && Told(c) == (if c.killed then [false] + (if c.up then [true] else [])
                   else (if c.up then [true] else []) + (if c.deleted == 1 then [false] else []))
  }

  lemma {:induction false} InOrderAppend(dq: seq<DispCall>, d: DispCall)
    requires InOrder(dq)
    requires OnlyKills(dq) || (d.Del? && Del !in dq)
    ensures InOrder(dq + [d])
  {
    if dq != [] && dq[0].DispKill? {
      assert (dq + [d])[1..] == dq[1..] + [d] && forall x :: x in dq[1..] ==> x in dq;
      InOrderAppend(dq[1..], d);
    } else if dq == [] {
      if d.DispKill? { assert [d][1..] == []; }
      assert dq + [d] == [d];
    }
  }

  lemma {:induction false} DelsNone(dq: seq<DispCall>)
    ensures Dels(dq) == 0 <==> Del !in dq
  {
    if dq != [] { DelsNone(dq[1..]); }
  }

  /** Deletion is due exactly once, after the connection was marked as terminated. */
  predicate ConnOk(c: Conn) {
    && c.deleted + Dels(c.dq) == (if c.terminated then 1 else 0)
    && (c.wq != [] ==> c.worker)
    && (c.terminated || Kill in c.wq || DispKill in c.dq ==> c.asked)
    && (c.asked ==> c.terminated || Kill in c.wq || DispKill in c.dq)
    && Ordered(c)
  }

  predicate AllOk(conns: seq<Conn>) { forall c :: 0 <= c < |conns| ==> ConnOk(conns[c]) }

  lemma AllOkPut(conns: seq<Conn>, c: nat, k: Conn)
    requires AllOk(conns) && c < |conns| && ConnOk(k)
    ensures AllOk(conns[c := k])
  {
  }

  class ConnPool {
    var pool: map<int, nat>       // by file descriptor
    var conns: seq<Conn>
    var open: set<int>            // the descriptors the kernel has given out

    constructor ()
      ensures Valid() && conns == [] && open == {}
    {
      pool, conns, open := map[], [], {};
    }

    ghost predicate Valid()
      reads this
    {
      && AllOk(conns) && Pooled(pool, conns) && pool.Keys <= open
    }

    /** add_conn, for a descriptor the kernel has just given out */
    method AddConn(fd: int) returns (c: nat)
      requires Valid() && fd !in open
      modifies this
      ensures Valid() && c == old(|conns|) && conns == old(conns) + [Conn(fd, false, false, [], [], [], [], 0, false,
              false, false, false)]
    {
      assert fd !in pool;         // as the source asserts
      c := |conns|;
      PooledAdd(pool, conns, Conn(fd, false, false, [], [], [], [], 0, false, false, false, false));
      conns := conns + [Conn(fd, false, false, [], [], [], [], 0, false, false, false, false)];
      pool, open := pool[fd := c], open + {fd};
    }

    /** The record of connection c changes to k, which stays pooled as it was. */
    method Put(c: nat, k: Conn)
      requires Valid() && c < |conns| && ConnOk(k) && k.fd == conns[c].fd && k.deleted == conns[c].deleted
      modifies this`conns
      ensures Valid() && conns == old(conns)[c := k]
    {
      AllOkPut(conns, c, k);
      PooledPut(pool, conns, c, k);
      conns := conns[c := k];
    }

    /** conn_server, or accept_client: a worker is assigned and fed */
    method AssignWorker(c: nat)
      requires Valid() && c < |conns| && !conns[c].worker && conns[c].deleted == 0
      modifies this`conns
      ensures Valid() && conns == old(conns)[c := old(conns)[c].(worker := true, wq := old(conns)[c].wq + [Feed])]
    {
      AssignedOk(conns[c]);
      Put(c, conns[c].(worker := true, wq := conns[c].wq + [Feed]));
    }

    /** worker_terminate */
    method WorkerTerminate(c: nat)
      requires Valid() && c < |conns| && conns[c].worker
      modifies this`conns
      ensures Valid() && conns == old(conns)[c := old(conns)[c].(wq := old(conns)[c].wq + [Kill], asked := true)]
    {
      AskedWorkerOk(conns[c]);
      Put(c, conns[c].(wq := conns[c].wq + [Kill], asked := true));
    }

    /** disp_terminate */
    method DispTerminate(c: nat)
      requires Valid() && c < |conns|
      modifies this`conns
      ensures Valid()
      ensures var k := old(conns)[c];
        conns == old(conns)[c := if k.worker then k.(wq := k.wq + [Kill], asked := true)
                                 else k.(dq := k.dq + [DispKill], asked := true, late := true)]
    {
      if conns[c].worker {
        WorkerTerminate(c);
      } else {
        AskedDispatcherOk(conns[c]);
        Put(c, conns[c].(dq := conns[c].dq + [DispKill], asked := true, late := true));
      }
    }

    /** del_conn and release_conn, for a connection whose record is k by then */
    method DelConn(c: nat, k: Conn)
      requires Valid() && c < |conns| && conns[c].deleted == 0 && k.fd == conns[c].fd
      requires ConnOk(k.(uq := k.uq + [false], deleted := 1))
      modifies this
      ensures Valid() && conns == old(conns)[c := k.(uq := k.uq + [false], deleted := 1)]
      ensures pool == old(pool) - {k.fd} && open == old(open) - {k.fd}
    {
      assert k.fd in pool;        // as the source asserts
      assert pool[k.fd] == c;
      AllOkPut(conns, c, k.(uq := k.uq + [false], deleted := 1));
      pool := pool - {k.fd};
      conns := conns[c := k.(uq := k.uq + [false], deleted := 1)];
      open := open - {k.fd};
    }

    /** The connection's worker runs the next call about it. */
    method RunWorker(c: nat)
      requires Valid() && c < |conns| && conns[c].wq != []
      modifies this`conns
      ensures Valid() && conns == old(conns)[c := Worked(old(conns)[c])]
    {
      WorkedOk(conns[c]);
      var k := conns[c];
      var t := k.(wq := k.wq[1..]);
      if k.wq[0].Feed? {
        Put(c, t.(dq := k.dq + [Setup]));
      } else if k.terminated {
        Put(c, t);
      } else {
        Put(c, t.(terminated := true, dq := k.dq + [Del]));
      }
    }

    /** The dispatcher's own setup of the connection, which may throw */
    method RunSetup(c: nat, throws: bool)
      requires Valid() && c < |conns| && conns[c].dq != [] && conns[c].dq[0].Setup?
      modifies this`conns
      ensures Valid()
      ensures var k := old(conns)[c];
        var t := k.(dq := k.dq[1..]);
        conns == old(conns)[c := if !throws then t.(uq := k.uq + [true], up := true)
                                 else if k.worker then t.(wq := k.wq + [Kill], asked := true)
                                 else t.(dq := t.dq + [DispKill], asked := true, late := true)]
    {
      SetUpOk(conns[c]);
      var k := conns[c];
      if throws {
        Put(c, k.(dq := k.dq[1..]));
        DispTerminate(c);
      } else {
        Put(c, k.(dq := k.dq[1..], uq := k.uq + [true], up := true));
      }
    }

    /** The dispatcher's part of a termination */
    method RunDelete(c: nat)
      requires Valid() && c < |conns| && conns[c].dq != [] && !conns[c].dq[0].Setup?
      modifies this
      ensures Valid() && conns == old(conns)[c := Deleted(old(conns)[c])]
    {
      DeletedOk(conns[c]);
      var k := conns[c];
      var t := k.(dq := k.dq[1..]);
      if k.dq[0].Del? {
        DelConn(c, t);
      } else if k.terminated {
        Put(c, t);
      } else {
        DelConn(c, t.(terminated := true, killed := true));
      }
    }

    /** The user's thread runs the connection callback. */
    method RunUser(c: nat)
      requires Valid() && c < |conns| && conns[c].uq != []
      modifies this`conns
      ensures Valid()
      ensures var k := old(conns)[c]; conns == old(conns)[c := k.(uq := k.uq[1..], seen := k.seen + [k.uq[0]])]
    {
      var k := conns[c];
      assert k.seen + k.uq == (k.seen + [k.uq[0]]) + k.uq[1..];
      Put(c, k.(uq := k.uq[1..], seen := k.seen + [k.uq[0]]));
    }

    /** Every run: any number of connections, requests from any thread at any time, any schedule. */
    method Run(steps: nat)
      requires Valid()
      modifies this
      ensures Valid()
      ensures forall c :: 0 <= c < |conns| ==> OnceEach(conns[c])
    {
      for i := 0 to steps
        invariant Valid()
      {
        var what: nat, c: nat := *, *;
        if what == 0 {
          var fd: int, passive: bool := *, *;
          if fd !in open {
            c := AddConn(fd);
            if passive { AssignWorker(c); }
          }
        } else if c < |conns| {
          var k := conns[c];
          if what == 1 { DispTerminate(c); }
          else if what == 2 { if k.worker { WorkerTerminate(c); } }
          else if what == 3 { if !k.worker && k.deleted == 0 { AssignWorker(c); } }
          else { RunQueues(c, what); }
        }
      }
      forall c | 0 <= c < |conns| ensures OnceEach(conns[c]) { OkIsOnceEach(conns[c]); }
    }

    /** One of the three threads runs its next call about connection c. */
    method RunQueues(c: nat, what: nat)
      requires Valid() && c < |conns|
      modifies this
      ensures Valid()
    {
      var k := conns[c];
      if what == 4 { if k.wq != [] { RunWorker(c); } }
      else if what == 5 { if k.uq != [] { RunUser(c); } }
      else if k.dq != [] {
        if k.dq[0].Setup? { var throws: bool := *; RunSetup(c, throws); }
        else { RunDelete(c); }
      }
    }
  }

  /**
   * The connection is deleted at most once, only if asked for, and has been once nothing asked for is pending.  The
   * user is told at most once that it is up and at most once that it is down; first down and then up exactly if the
   * dispatcher deleted it on a request from before it had a worker, and the worker it was given in between then led
   * to a setup that succeeded.
   */
  predicate OnceEach(c: Conn) {
    && c.deleted <= 1
    && (c.deleted == 1 ==> c.asked)
    && (c.asked && c.wq == [] && c.dq == [] ==> c.deleted == 1)
    && (AtMostOnceEach(Told(c)) || Told(c) == [false, true])
    && (Told(c) == [false, true] <==> c.killed && c.up)
    && (c.killed ==> c.late) && (c.up ==> c.worker)
  }

  lemma OkIsOnceEach(c: Conn)
    requires ConnOk(c)
    ensures OnceEach(c)
  {
  }

  lemma AssignedOk(k: Conn)
    requires ConnOk(k) && !k.worker && k.deleted == 0
    ensures ConnOk(k.(worker := true, wq := k.wq + [Feed]))
  {
    assert k.wq + [Feed] == [Feed];
  }

  lemma AskedWorkerOk(k: Conn)
    requires ConnOk(k) && k.worker
    ensures ConnOk(k.(wq := k.wq + [Kill], asked := true))
  {
    assert k.wq != [] ==> (k.wq + [Kill])[1..] == k.wq[1..] + [Kill];
  }

  lemma AskedDispatcherOk(k: Conn)
    requires ConnOk(k) && !k.worker
    ensures ConnOk(k.(dq := k.dq + [DispKill], asked := true, late := true))
  {
    DelsAppend(k.dq, DispKill);
    InOrderAppend(k.dq, DispKill);
  }

  /** After the worker's next call. */
  function Worked(k: Conn): Conn
    requires k.wq != []
  {
    var t := k.(wq := k.wq[1..]);
    if k.wq[0].Feed? then t.(dq := k.dq + [Setup])
    else if k.terminated then t
    else t.(terminated := true, dq := k.dq + [Del])
  }

  lemma WorkedOk(k: Conn)
    requires ConnOk(k) && k.wq != []
    ensures ConnOk(Worked(k))
  {
    if k.wq[0].Feed? { FedOk(k); } else { KilledOk(k); }
  }

  lemma FedOk(k: Conn)
    requires ConnOk(k) && k.wq != [] && k.wq[0].Feed?
    ensures ConnOk(Worked(k))
  {
    assert k.wq == [Feed] + k.wq[1..];
    DelsAppend(k.dq, Setup);
    InOrderAppend(k.dq, Setup);
  }

  lemma KilledOk(k: Conn)
    requires ConnOk(k) && k.wq != [] && k.wq[0].Kill?
    ensures ConnOk(Worked(k))
  {
    assert k.wq == [Kill] + k.wq[1..];
    if !k.terminated {
      DelsAppend(k.dq, Del);
      DelsNone(k.dq);
      InOrderAppend(k.dq, Del);
    }
  }

  lemma SetUpOk(k: Conn)
    requires ConnOk(k) && k.dq != [] && k.dq[0].Setup?
    ensures ConnOk(k.(dq := k.dq[1..])) && ConnOk(k.(dq := k.dq[1..], uq := k.uq + [true], up := true))
  {
    assert k.seen + (k.uq + [true]) == Told(k) + [true];
    assert k.dq == [Setup] + k.dq[1..];
  }

  /** After the dispatcher's part of a termination. */
  function Deleted(k: Conn): Conn
    requires k.dq != []
  {
    var t := k.(dq := k.dq[1..]);
    if k.dq[0].DispKill? && k.terminated then t
    else t.(terminated := true, deleted := 1, uq := k.uq + [false], killed := k.dq[0].DispKill?)
  }

  lemma DeletedOk(k: Conn)
    requires ConnOk(k) && k.dq != [] && !k.dq[0].Setup?
    ensures ConnOk(Deleted(k)) && ((k.dq[0].DispKill? && k.terminated) || k.deleted == 0)
    ensures k.dq[0].Del? ==> k.terminated
  {
    assert k.seen + (k.uq + [false]) == Told(k) + [false];
    assert k.dq == [k.dq[0]] + k.dq[1..];
    DelsNone(k.dq[1..]);
    InOrderRest(k.dq);
  }

  lemma InOrderRest(dq: seq<DispCall>)
    requires InOrder(dq) && dq != []
    ensures InOrder(dq[1..]) && (dq[0].Del? ==> dq == [Del]) && (dq[0].Setup? ==> dq == [Setup] || dq == [Setup, Del])
  {
    if !dq[0].DispKill? { assert dq[1..] == [] || dq[1..] == [Del]; }
  }

  /** The pool holds exactly the connections not yet deleted, each under its own descriptor. */
  ghost predicate Pooled(pool: map<int, nat>, conns: seq<Conn>) {
    && (forall fd :: fd in pool ==> pool[fd] < |conns| && conns[pool[fd]].fd == fd && conns[pool[fd]].deleted == 0)
    && (forall c :: 0 <= c < |conns| && conns[c].deleted == 0 ==> conns[c].fd in pool && pool[conns[c].fd] == c)
  }

  /**
   * Asked to terminate while still connecting, a connection that nevertheless gets its worker first tells the user
   * that it is down and then that it is up.
   */
  method LateRequestTellsTheEndFirst(fd: int) returns (told: seq<bool>)
    ensures told == [false, true] && !AtMostOnceEach(told)
  {
    var p := new ConnPool();
    var c := p.AddConn(fd);
    p.DispTerminate(c);
    p.AssignWorker(c);
    p.RunDelete(c);
    p.RunWorker(c);
    p.RunSetup(c, false);
    p.RunUser(c);
    p.RunUser(c);
    told := p.conns[c].seen;
  }

  lemma PooledPut(pool: map<int, nat>, conns: seq<Conn>, c: nat, k: Conn)
    requires Pooled(pool, conns) && c < |conns| && k.fd == conns[c].fd && k.deleted == conns[c].deleted
    ensures Pooled(pool, conns[c := k])
  {
    var conns' := conns[c := k];
    forall fd | fd in pool
      ensures pool[fd] < |conns'| && conns'[pool[fd]].fd == fd && conns'[pool[fd]].deleted == 0
    {
    }
  }

  lemma PooledAdd(pool: map<int, nat>, conns: seq<Conn>, k: Conn)
    requires Pooled(pool, conns) && k.fd !in pool && k.deleted == 0
    ensures Pooled(pool[k.fd := |conns|], conns + [k])
  {
  }
}
