/** drain.go's intrusive doubly linked list of connections whose deadlines a drain
    still has to reset, refined to a sequence. */
module DrainPending {

  const BATCH := 128

  class TrackedConnection {
    const conn: nat
    var prev: TrackedConnection?
    var next: TrackedConnection?
    var pending: bool

    constructor (conn: nat, next: TrackedConnection?)
      ensures this.conn == conn && this.next == next && prev == null && pending
    {
      this.conn := conn;
      this.next := next;
      prev := null;
      pending := true;
    }
  }

  type Nodes = seq<TrackedConnection>

  /** The element after, or before, position i; null at the ends. */
  function Neighbour(nodes: Nodes, i: int): TrackedConnection? {
    if 0 <= i < |nodes| then nodes[i] else null
  }

  ghost predicate Distinct(nodes: Nodes) {
    forall i, j :: 0 <= i < |nodes| && 0 <= j < |nodes| && nodes[i] == nodes[j] ==> i == j
  }

  ghost predicate LinkedAt(nodes: Nodes, i: nat)
    requires i < |nodes|
    reads nodes
  {
    nodes[i].pending && nodes[i].prev == Neighbour(nodes, i - 1) && nodes[i].next == Neighbour(nodes, i + 1)
  }

  /** The list from `head` is exactly `nodes`. */
  ghost predicate List(head: TrackedConnection?, nodes: Nodes)
    reads nodes
  {
    && Distinct(nodes) && head == Neighbour(nodes, 0)
    && forall i {:trigger LinkedAt(nodes, i)} :: 0 <= i < |nodes| ==> LinkedAt(nodes, i)
  }

  ghost predicate From(a: Nodes, b: Nodes) {
    forall i {:trigger a[i]} :: 0 <= i < |a| ==> a[i] in b
  }

  function Conns(nodes: Nodes): seq<nat> {
    seq(|nodes|, i requires 0 <= i < |nodes| => nodes[i].conn)
  }

  // ------------------------------------------------------- what a drain does

  function Without(pending: seq<nat>, conn: nat): seq<nat> {
    if pending == [] then []
    else if pending[0] == conn then pending[1..]
    else [pending[0]] + Without(pending[1..], conn)
  }

  function WithoutAll(pending: seq<nat>, closed: seq<nat>): seq<nat>
    decreases |closed|
  {
    if closed == [] then pending else WithoutAll(Without(pending, closed[0]), closed[1..])
  }

  function Front(pending: seq<nat>): nat { if |pending| < BATCH then |pending| else BATCH }

  /** What happens around one round of beginDrain's loop: the connections that close
      before it takes its batch, and whether the drain completes before it looks. */
  datatype Round = Round(drained: bool, closed: seq<nat>)

  /** What the rounds wake, in order, what they leave pending, and whether the loop found
      nothing left to do. */
  datatype Woken = Woken(conns: seq<nat>, left: seq<nat>, finished: bool)

  /** beginDrain's loop over the pending connections, one round for each time it finds
      the deadline not yet reached. */
  function Rounds(pending: seq<nat>, rounds: seq<Round>): Woken
    decreases |rounds|
  {
    if rounds == [] then Woken([], pending, false)
    else if rounds[0].drained then Woken([], pending, true)
    else
      var now := WithoutAll(pending, rounds[0].closed);
      if now == [] then Woken([], [], true)
      else
        var rest := Rounds(now[Front(now)..], rounds[1..]);
        rest.(conns := now[..Front(now)] + rest.conns)
  }

  // ------------------------------------------------ what that means for a drain

  /** a is what is left of b when some elements are taken out. */
  ghost predicate Within(a: seq<nat>, b: seq<nat>) {
    a == [] || (b != [] && if a[0] == b[0] then Within(a[1..], b[1..]) else Within(a, b[1..]))
  }

  lemma {:induction false} WithinSelf(a: seq<nat>)
    ensures Within(a, a)
    decreases |a|
  {
    if a != [] {
      WithinSelf(a[1..]);
    }
  }

  /** Taking out more elements at the front of a still fits. */
  lemma {:induction false} WithinTail(a: seq<nat>, b: seq<nat>)
    requires a != [] && Within(a, b)
    ensures b != [] && Within(a[1..], b[1..])
    decreases |b|
  {
    if a[0] != b[0] {
      WithinTail(a, b[1..]);
      WithinMore(a[1..], b[1..][1..], b[1..]);
    }
  }

  lemma {:induction false} WithinMore(a: seq<nat>, b: seq<nat>, c: seq<nat>)
    requires c != [] && c[1..] == b && Within(a, b)
    ensures Within(a, c)
    decreases |c|
  {
    if a != [] && a[0] == c[0] {
      WithinTail(a, b);
      WithinMore(a[1..], b[1..], b);
    }
  }

  lemma {:induction false} WithinTrans(a: seq<nat>, b: seq<nat>, c: seq<nat>)
    requires Within(a, b) && Within(b, c)
    ensures Within(a, c)
    decreases |c|
  {
    if a != [] {
      if b[0] != c[0] {
        WithinTrans(a, b, c[1..]);
        WithinMore(a, c[1..], c);
      } else if a[0] == b[0] {
        WithinTrans(a[1..], b[1..], c[1..]);
      } else {
        WithinTrans(a, b[1..], c[1..]);
        WithinMore(a, c[1..], c);
      }
    }
  }

  lemma {:induction false} WithinJoin(pre: seq<nat>, a: seq<nat>, b: seq<nat>)
    requires Within(a, b)
    ensures Within(pre + a, pre + b)
    decreases |pre|
  {
    if pre == [] {
      assert pre + a == a && pre + b == b;
    } else {
      WithinJoin(pre[1..], a, b);
      assert (pre + a)[1..] == pre[1..] + a && (pre + b)[1..] == pre[1..] + b;
    }
  }

  lemma {:induction false} WithoutWithin(pending: seq<nat>, conn: nat)
    ensures Within(Without(pending, conn), pending)
    ensures forall x :: x in pending && x != conn ==> x in Without(pending, conn)
    decreases |pending|
  {
    if pending != [] {
      WithinSelf(pending[1..]);
      if pending[0] == conn {
        WithinMore(pending[1..], pending[1..], pending);
      } else {
        WithoutWithin(pending[1..], conn);
      }
    }
  }

  lemma {:induction false} WithoutAllWithin(pending: seq<nat>, closed: seq<nat>)
    ensures Within(WithoutAll(pending, closed), pending)
    ensures forall x :: x in pending && x !in closed ==> x in WithoutAll(pending, closed)
    decreases |closed|
  {
    if closed == [] {
      WithinSelf(pending);
    } else {
      WithoutWithin(pending, closed[0]);
      WithoutAllWithin(Without(pending, closed[0]), closed[1..]);
      WithinTrans(WithoutAll(pending, closed), Without(pending, closed[0]), pending);
    }
  }

  lemma BatchWithin(now: seq<nat>, n: nat, conns: seq<nat>, left: seq<nat>)
    requires n <= |now| && Within(conns + left, now[n..])
    ensures Within(now[..n] + conns + left, now)
  {
    WithinJoin(now[..n], conns + left, now[n..]);
    assert now[..n] + now[n..] == now;
    assert now[..n] + (conns + left) == now[..n] + conns + left;
  }

  /** Connections are woken in list order, and only pending ones: what is woken, followed by
      what is left over, is what was pending with some taken out. */
  lemma {:induction false} WokenInOrder(pending: seq<nat>, rounds: seq<Round>)
    ensures var r := Rounds(pending, rounds); Within(r.conns + r.left, pending)
    decreases |rounds|
  {
    var r := Rounds(pending, rounds);
    if rounds == [] || rounds[0].drained {
      assert r.conns + r.left == pending;
      WithinSelf(pending);
    } else {
      var now := WithoutAll(pending, rounds[0].closed);
      WithoutAllWithin(pending, rounds[0].closed);
      if now != [] {
        var n := Front(now);
        var rest := Rounds(now[n..], rounds[1..]);
        WokenInOrder(now[n..], rounds[1..]);
        BatchWithin(now, n, rest.conns, rest.left);
        WithinTrans(r.conns + r.left, now, pending);
      }
    }
  }

  // Closed connections.

  ghost predicate Once(s: seq<nat>) {
    forall i, j :: 0 <= i < j < |s| ==> s[i] != s[j]
  }

  lemma {:induction false} WithinIn(a: seq<nat>, b: seq<nat>, x: nat)
    requires Within(a, b) && x in a
    ensures x in b
    decreases |b|
  {
    if a[0] != b[0] {
      WithinIn(a, b[1..], x);
    } else if x != a[0] {
      WithinIn(a[1..], b[1..], x);
    }
  }

  lemma {:induction false} WithinOnce(a: seq<nat>, b: seq<nat>)
    requires Within(a, b) && Once(b)
    ensures Once(a)
    decreases |b|
  {
    if a != [] {
      if a[0] != b[0] {
        WithinOnce(a, b[1..]);
      } else {
        WithinOnce(a[1..], b[1..]);
        forall j | 0 < j < |a| ensures a[0] != a[j] {
          assert a[j] == a[1..][j - 1];
          WithinIn(a[1..], b[1..], a[j]);
        }
      }
    }
  }

  lemma {:induction false} WithoutGone(pending: seq<nat>, conn: nat)
    requires Once(pending)
    ensures conn !in Without(pending, conn)
    decreases |pending|
  {
    if pending != [] {
      if pending[0] == conn {
        assert forall j :: 0 < j < |pending| ==> pending[j] != conn;
      } else {
        WithoutGone(pending[1..], conn);
      }
    }
  }

  lemma {:induction false} WithoutAllGone(pending: seq<nat>, closed: seq<nat>, x: nat)
    requires Once(pending) && (x in closed || x !in pending)
    ensures x !in WithoutAll(pending, closed) && Once(WithoutAll(pending, closed))
    decreases |closed|
  {
    if closed != [] {
      var less := Without(pending, closed[0]);
      WithoutWithin(pending, closed[0]);
      WithinOnce(less, pending);
      WithoutGone(pending, closed[0]);
      if x in less {
        WithinIn(less, pending, x);
      }
      WithoutAllGone(less, closed[1..], x);
    }
  }

  /** What is no longer pending is neither woken nor left over. */
  lemma GoneStaysGone(pending: seq<nat>, rounds: seq<Round>, x: nat)
    requires x !in pending
    ensures var r := Rounds(pending, rounds); x !in r.conns && x !in r.left
  {
    var r := Rounds(pending, rounds);
    WokenInOrder(pending, rounds);
    if x in r.conns + r.left {
      WithinIn(r.conns + r.left, pending, x);
    }
  }

  lemma FrontOnce(now: seq<nat>, n: nat)
    requires Once(now) && n <= |now|
    ensures Once(now[n..])
  {
  }

  /** A connection that closes while the loop is in round i is not woken in that round or a
      later one, and not left pending: it has been woken only if it had been before. */
  lemma {:induction false} ClosedIsNotWoken(pending: seq<nat>, rounds: seq<Round>, i: nat, x: nat)
    requires Once(pending) && i < |rounds| && x in rounds[i].closed && !rounds[i].drained
    requires !Rounds(pending, rounds[..i]).finished
    ensures var r := Rounds(pending, rounds);
      x !in r.left && (x in r.conns <==> x in Rounds(pending, rounds[..i]).conns)
    decreases i
  {
    var now := WithoutAll(pending, rounds[0].closed);
    if i == 0 {
      WithoutAllGone(pending, rounds[0].closed, x);
      if now != [] {
        GoneStaysGone(now[Front(now)..], rounds[1..], x);
      }
    } else {
      var first := rounds[..i];
      assert first[0] == rounds[0] && first[1..] == rounds[1..][..i - 1];
      WithoutAllWithin(pending, rounds[0].closed);
      WithinOnce(now, pending);
      FrontOnce(now, Front(now));
      ClosedIsNotWoken(now[Front(now)..], rounds[1..], i - 1, x);
    }
  }

  /** No pending connection is overlooked: it is woken, or closed, or still pending. */
  lemma {:induction false} NoneOverlooked(pending: seq<nat>, rounds: seq<Round>, x: nat)
    requires x in pending && forall i :: 0 <= i < |rounds| ==> x !in rounds[i].closed
    ensures var r := Rounds(pending, rounds); x in r.conns || x in r.left
    decreases |rounds|
  {
    if rounds != [] && !rounds[0].drained {
      var now := WithoutAll(pending, rounds[0].closed);
      WithoutAllWithin(pending, rounds[0].closed);
      assert now == now[..Front(now)] + now[Front(now)..];
      if x in now[Front(now)..] {
        NoneOverlooked(now[Front(now)..], rounds[1..], x);
      }
    }
  }

  /** The loop ends by itself within one round more than the batches it takes, and then
      nothing is left pending, unless the drain completed first. */
  lemma {:induction false} WakingEnds(pending: seq<nat>, rounds: seq<Round>)
    ensures |rounds| * 128 >= |pending| + 128 ==> Rounds(pending, rounds).finished
    ensures Rounds(pending, rounds).finished && (forall i :: 0 <= i < |rounds| ==> !rounds[i].drained) ==>
              Rounds(pending, rounds).left == []
    decreases |rounds|
  {
    if rounds != [] && !rounds[0].drained {
      var now := WithoutAll(pending, rounds[0].closed);
      WithoutAllWithin(pending, rounds[0].closed);
      WithinShorter(now, pending);
      if now != [] {
        WakingEnds(now[Front(now)..], rounds[1..]);
      }
    }
  }

  lemma {:induction false} WithinShorter(a: seq<nat>, b: seq<nat>)
    requires Within(a, b)
    ensures |a| <= |b|
    decreases |b|
  {
    if a != [] {
      WithinShorter(if a[0] == b[0] then a[1..] else a, b[1..]);
    }
  }

  // -------------------------------------------------------------- the list

  lemma WithoutNone(pending: seq<nat>, conn: nat)
    requires conn !in pending
    ensures Without(pending, conn) == pending
    decreases |pending|
  {
    if pending != [] {
      WithoutNone(pending[1..], conn);
    }
  }

  lemma {:induction false} WithoutAt(pending: seq<nat>, conn: nat, at: nat)
    requires at < |pending| && pending[at] == conn && forall i :: 0 <= i < at ==> pending[i] != conn
    ensures Without(pending, conn) == pending[..at] + pending[at + 1..]
    decreases |pending|
  {
    if at > 0 {
      WithoutAt(pending[1..], conn, at - 1);
      assert [pending[0]] + (pending[1..][..at - 1] + pending[1..][at..]) == pending[..at] + pending[at + 1..];
    }
  }

  lemma HeadFirst(was: Nodes, rest: Nodes)
    requires was != [] && rest == was[..0] + was[1..]
    ensures [was[0].conn] + Conns(rest) == Conns(was) && From(rest, was)
  {
    assert rest == was[1..];
  }

  lemma OneMore(batch: seq<nat>, conn: nat, rest: seq<nat>)
    ensures batch + [conn] + rest == batch + ([conn] + rest)
  {
  }

  lemma BatchIsFront(batch: seq<nat>, rest: seq<nat>, whole: seq<nat>)
    requires batch + rest == whole && |batch| <= BATCH && (|batch| == BATCH || rest == [])
    ensures batch == whole[..Front(whole)] && rest == whole[Front(whole)..]
  {
  }

  lemma ConnsApart(a: Nodes, b: Nodes)
    ensures Conns(a + b) == Conns(a) + Conns(b)
  {
  }

  class PendingList {
    var head: TrackedConnection?
    var connections: map<nat, TrackedConnection>
    ghost var nodes: Nodes

    ghost predicate Valid()
      reads this, nodes
    {
      List(head, nodes)
    }

    /** The connections the map holds are those of the list, and others that have left it. */
    ghost predicate Indexed()
      reads this, nodes, connections.Values
    {
      && (forall i :: 0 <= i < |nodes| ==> nodes[i].conn in connections && connections[nodes[i].conn] == nodes[i])
      && (forall conn :: conn in connections ==>
            connections[conn].conn == conn && (connections[conn].pending ==> connections[conn] in nodes))
    }

    /** No connection is in the list twice. */
    lemma PendingOnce()
      requires Valid() && Indexed()
      ensures Once(Conns(nodes))
    {
      forall i, j | 0 <= i < j < |nodes| ensures Conns(nodes)[i] != Conns(nodes)[j] {
        assert Conns(nodes)[i] == nodes[i].conn && Conns(nodes)[j] == nodes[j].conn;
      }
    }

    constructor ()
      ensures Valid() && Indexed() && nodes == [] && connections == map[]
    {
      head, nodes, connections := null, [], map[];
    }

    /** The list part of accept: the new connection goes to the front. */
    method Push(conn: nat) returns (tracked: TrackedConnection)
      requires Valid()
      modifies this`head, this`nodes, nodes
      ensures Valid() && fresh(tracked) && tracked.conn == conn && nodes == [tracked] + old(nodes)
    {
      ghost var was := nodes;
      tracked := new TrackedConnection(conn, head);
      if head != null {
        assert LinkedAt(was, 0);
        head.prev := tracked;
      }
      head := tracked;
      nodes := [tracked] + was;
      forall i {:trigger LinkedAt(nodes, i)} | 0 <= i < |nodes| ensures LinkedAt(nodes, i) {
        if i > 0 {
          assert old(LinkedAt(was, i - 1));
        }
      }
    }

    /** accept, once it is decided: a connection accepts only once. */
    method Accept(conn: nat)
      requires Valid() && Indexed() && conn !in connections
      modifies this, nodes
      ensures Valid() && Indexed() && Conns(nodes) == [conn] + old(Conns(nodes))
      ensures connections.Keys == old(connections.Keys) + {conn}
    {
      var tracked := Push(conn);
      connections := connections[conn := tracked];
    }

    /** drain.go removePendingLocked: unlinks from anywhere, and is idempotent. */
    method Remove(tracked: TrackedConnection, ghost at: nat)
      requires Valid() && (tracked.pending <==> tracked in nodes)
      requires tracked.pending ==> at < |nodes| && nodes[at] == tracked
      modifies this`head, this`nodes, nodes
      ensures Valid() && !tracked.pending && tracked !in nodes
      ensures nodes == if old(tracked.pending) then old(nodes)[..at] + old(nodes)[at + 1..] else old(nodes)
      ensures old(tracked.pending) ==> tracked.prev == null && tracked.next == null
    {
      if !tracked.pending {
        return;
      }
      ghost var was := nodes;
      assert LinkedAt(was, at);
      if tracked.prev == null {
        head := tracked.next;
      } else {
        tracked.prev.next := tracked.next;
      }
      if tracked.next != null {
        tracked.next.prev := tracked.prev;
      }
      tracked.prev, tracked.next, tracked.pending := null, null, false;
      nodes := was[..at] + was[at + 1..];
      forall i {:trigger LinkedAt(nodes, i)} | 0 <= i < |nodes| ensures LinkedAt(nodes, i) {
        var old_i := if i < at then i else i + 1;
        assert nodes[i] == was[old_i] && old(LinkedAt(was, old_i));
      }
    }

    lemma NotListed(conn: nat)
      requires Valid() && Indexed() && (conn in connections ==> !connections[conn].pending)
      ensures Without(Conns(nodes), conn) == Conns(nodes) && (conn in connections ==> connections[conn] !in nodes)
    {
      forall i | 0 <= i < |nodes| ensures nodes[i].conn != conn {
        assert LinkedAt(nodes, i);
      }
      WithoutNone(Conns(nodes), conn);
    }

    /** Where a connection is in the list, if it is. */
    lemma Find(conn: nat) returns (at: nat)
      requires Valid() && Indexed() && conn in connections
      ensures connections[conn].pending <==> connections[conn] in nodes
      ensures if connections[conn].pending
              then at < |nodes| && nodes[at] == connections[conn]
                  && Without(Conns(nodes), conn) == Conns(nodes[..at] + nodes[at + 1..])
              else Without(Conns(nodes), conn) == Conns(nodes)
    {
      at := 0;
      if connections[conn].pending {
        at :| 0 <= at < |nodes| && nodes[at] == connections[conn];
        WithoutAt(Conns(nodes), conn, at);
        ConnsApart(nodes[..at], nodes[at + 1..]);
      } else {
        NotListed(conn);
      }
    }

    /** drain.go connectionClosed, up to the signal. */
    method ConnectionClosed(conn: nat)
      requires Valid() && Indexed()
      modifies this, nodes
      ensures Valid() && Indexed() && connections == old(connections) - {conn}
      ensures Conns(nodes) == Without(old(Conns(nodes)), conn) && From(nodes, old(nodes))
    {
      if conn in connections {
        var tracked := connections[conn];
        ghost var at := Find(conn);
        Remove(tracked, at);
      } else {
        NotListed(conn);
      }
      connections := connections - {conn};
    }

    /** Connections close while the drain does not hold the mutex. */
    method CloseAll(closed: seq<nat>)
      requires Valid() && Indexed()
      modifies this, nodes
      ensures Valid() && Indexed() && From(nodes, old(nodes))
      ensures Conns(nodes) == WithoutAll(old(Conns(nodes)), closed)
    {
      ghost var was := nodes;
      var i := 0;
      while i < |closed|
        invariant i <= |closed| && Valid() && Indexed() && From(nodes, was)
        invariant WithoutAll(Conns(nodes), closed[i..]) == WithoutAll(old(Conns(nodes)), closed)
        modifies this, was
      {
        ConnectionClosed(closed[i]);
        assert closed[i..][1..] == closed[i + 1..];
        i := i + 1;
      }
    }

    /** Removal keeps the map and the list in step. */
    method RemoveAt(tracked: TrackedConnection, ghost at: nat)
      requires Valid() && Indexed() && at < |nodes| && nodes[at] == tracked
      modifies this`head, this`nodes, nodes
      ensures Valid() && Indexed() && nodes == old(nodes)[..at] + old(nodes)[at + 1..]
    {
      ghost var was := nodes;
      assert LinkedAt(nodes, at);
      Remove(tracked, at);
      forall i {:trigger nodes[i]} | 0 <= i < |nodes|
        ensures nodes[i].conn in connections && connections[nodes[i].conn] == nodes[i]
      {
        assert nodes[i] == was[if i < at then i else i + 1];
      }
      forall conn | conn in connections && connections[conn].pending ensures connections[conn] in nodes {
        var j :| 0 <= j < |was| && was[j] == connections[conn];
        assert nodes[if j < at then j else j - 1] == was[j];
      }
    }

    /** The first connection leaves the list. */
    method TakeHead() returns (conn: nat)
      requires Valid() && Indexed() && nodes != []
      modifies this, nodes
      ensures Valid() && Indexed() && From(nodes, old(nodes)) && [conn] + Conns(nodes) == old(Conns(nodes))
    {
      ghost var was := nodes;
      conn := head.conn;
      RemoveAt(head, 0);
      HeadFirst(was, nodes);
    }

    /** One round of beginDrain: at most 128 connections leave the front of the list. */
    method TakeBatch() returns (batch: seq<nat>)
      requires Valid() && Indexed()
      modifies this, nodes
      ensures Valid() && Indexed() && From(nodes, old(nodes))
      ensures batch == old(Conns(nodes))[..Front(old(Conns(nodes)))]
      ensures |batch| == if |old(nodes)| < 128 then |old(nodes)| else 128
      ensures Conns(nodes) == old(Conns(nodes))[Front(old(Conns(nodes)))..]
    {
      batch := [];
      ghost var was := nodes;
      while |batch| < BATCH && head != null
        invariant Valid() && Indexed() && |batch| <= BATCH && From(nodes, was)
        invariant batch + Conns(nodes) == Conns(was)
        modifies this, was
        decreases BATCH - |batch|
      {
        var conn := TakeHead();
        OneMore(batch, conn, Conns(nodes));
        batch := batch + [conn];
      }
      BatchIsFront(batch, Conns(nodes), Conns(was));
    }

    /** One round of the loop, if the drain has not completed: connections close, then the
        batch is taken. */
    method RoundOf(closed: seq<nat>) returns (batch: seq<nat>)
      requires Valid() && Indexed()
      modifies this, nodes
      ensures Valid() && Indexed() && From(nodes, old(nodes))
      ensures var now := WithoutAll(old(Conns(nodes)), closed);
        batch == now[..Front(now)] && Conns(nodes) == now[Front(now)..]
    {
      CloseAll(closed);
      batch := TakeBatch();
    }

    /** beginDrain's loop. */
    method WakePending(rounds: seq<Round>) returns (woken: seq<nat>, finished: bool)
      requires Valid() && Indexed()
      modifies this, nodes
      ensures Valid() && Indexed()
      ensures Rounds(old(Conns(nodes)), rounds) == Woken(woken, Conns(nodes), finished)
    {
      woken, finished := [], false;
      ghost var was := nodes;
      ghost var whole := Rounds(Conns(nodes), rounds);
      var r := 0;
      while r < |rounds|
        invariant r <= |rounds| && Valid() && Indexed() && From(nodes, was)
        invariant GoesOn(whole, woken, Rounds(Conns(nodes), rounds[r..]))
        modifies this, was
      {
        ghost var pending := Conns(nodes);
        if rounds[r].drained {
          return woken, true;
        }
        var batch := RoundOf(rounds[r].closed);
        RoundGoesOn(whole, woken, pending, rounds, r, batch, Conns(nodes));
        if |batch| == 0 {
          return woken, true;
        }
        woken := woken + batch;
        r := r + 1;
      }
    }
  }

  /** The whole is what is woken already, and what the rest of the rounds does. */
  ghost predicate GoesOn(whole: Woken, woken: seq<nat>, rest: Woken) {
    whole == rest.(conns := woken + rest.conns)
  }

  lemma RoundGoesOn(whole: Woken, woken: seq<nat>, pending: seq<nat>, rounds: seq<Round>, r: nat, batch: seq<nat>,
                    left: seq<nat>)
    requires r < |rounds| && !rounds[r].drained && GoesOn(whole, woken, Rounds(pending, rounds[r..]))
    requires var now := WithoutAll(pending, rounds[r].closed); batch == now[..Front(now)] && left == now[Front(now)..]
    ensures if batch == [] then left == [] && whole == Woken(woken, [], true)
            else GoesOn(whole, woken + batch, Rounds(left, rounds[r + 1..]))
  {
    assert rounds[r..][0] == rounds[r] && rounds[r..][1..] == rounds[r + 1..];
    assert woken + (batch + Rounds(left, rounds[r + 1..]).conns) == woken + batch + Rounds(left, rounds[r + 1..]).conns;
  }
}
