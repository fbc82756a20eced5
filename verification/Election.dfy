/** What every step of the election keeps, for every wave at once, and why a wave
    that completes has reached every connector. */
module Election {
  import opened Network
  import opened Setup

  /** How a connector joined a wave: over which link, and how many joins came before. */
  datatype Join = Join(parent: Option<nat>, rank: nat)

  /** Auxiliary history. `join[(n, w)]` exists once connector `n` has joined wave `w`,
      and stays when `n` abandons `w`; `sent` holds (endpoint, wave) once that wave went out. */
  datatype History = History(join: map<(nat, nat), Join>, sent: set<(Endpoint, nat)>, left: map<nat, nat>)

  ghost predicate Got(g: Graph, s: State, h: History, e: Endpoint, w: nat)
    requires Shape(g, s)
  {
    e in g.peer && (g.peer[e], w) in h.sent && Wave(w) !in s.inbox[e]
  }

  predicate Running(ph: Phase) { ph.Electing? || ph.Building? || ph.Settled? }

  /** Connector `n` currently supports wave `w` or a greater one. */
  ghost predicate Reached(s: State, n: nat, w: nat) {
    n in s.phases && Running(s.phases[n]) && s.phases[n].leader >= w
  }

  ghost predicate JoinOk(g: Graph, s: State, h: History, n: nat, w: nat)
    requires Shape(g, s) && (n, w) in h.join
  {
    var j := h.join[(n, w)];
    && n in g.degree && w in g.degree && n <= w && Reached(s, n, w)
    && (j.parent == None <==> n == w)
    && (forall i: nat | i < g.degree[n] && Some(i) != j.parent :: (Endpoint(n, i), w) in h.sent)
    && (j.parent.Some? ==>
          && j.parent.value < g.degree[n]
          && Got(g, s, h, Endpoint(n, j.parent.value), w)
          && var m := g.peer[Endpoint(n, j.parent.value)].node;
             (m, w) in h.join && h.join[(m, w)].rank < j.rank)
  }

  ghost predicate GotElsewhere(g: Graph, s: State, h: History, e: Endpoint, w: nat)
    requires Shape(g, s) && e.node in g.degree
  {
    forall i: nat | i < g.degree[e.node] && i != e.index :: Got(g, s, h, Endpoint(e.node, i), w)
  }

  ghost predicate SentOk(g: Graph, s: State, h: History, e: Endpoint, w: nat)
    requires Shape(g, s)
  {
    && e in g.peer && (e.node, w) in h.join
    && (h.join[(e.node, w)].parent == Some(e.index) ==> GotElsewhere(g, s, h, e, w))
  }

  predicate Clash(a: Msg, b: Msg) { a == b || (!a.Wave? && !b.Wave?) }

  ghost predicate QueueOk(g: Graph, h: History, e: Endpoint, q: seq<Msg>)
    requires e in g.peer
  {
    && (forall i | 0 <= i < |q| && q[i].Wave? :: (g.peer[e], q[i].leader) in h.sent)
    && (forall i, j | 0 <= i < j < |q| :: !Clash(q[i], q[j]))
  }

  /** The invariant of all waves. */
  ghost predicate Waves(g: Graph, s: State, h: History)
    requires Shape(g, s)
  {
    && (forall k <- h.join :: JoinOk(g, s, h, k.0, k.1))
    && (forall p <- h.sent :: SentOk(g, s, h, p.0, p.1))
    && (forall e <- g.peer :: QueueOk(g, h, e, s.inbox[e]))
    && (forall e <- g.peer, w: nat | Got(g, s, h, e, w) :: Reached(s, e.node, w))
  }

  ghost function Awaited(g: Graph, s: State, h: History, n: nat, parent: Option<nat>, w: nat): set<nat>
    requires Shape(g, s) && n in g.degree
  {
    set i | i in Others(g.degree[n], parent) && !Got(g, s, h, Endpoint(n, i), w)
  }

  ghost predicate ElectingOk(g: Graph, s: State, h: History, n: nat)
    requires Shape(g, s) && n in g.degree && s.phases[n].Electing?
  {
    var ph := s.phases[n];
    && (n, n) in h.join && (n, ph.leader) in h.join
    && h.join[(n, ph.leader)].parent == ph.parent
    && ph.awaiting == Awaited(g, s, h, n, ph.parent, ph.leader)
    && (ph.parent == None ==> ph.awaiting != {})
    && (ph.parent.Some? ==> ((Endpoint(n, ph.parent.value), ph.leader) in h.sent <==> ph.awaiting == {}))
  }

  /** Everything the root of wave `w` waits for has come back. */
  ghost predicate Complete(g: Graph, s: State, h: History, w: nat)
    requires Shape(g, s)
  {
    && w in g.degree && (w, w) in h.join
    && forall i: nat | i < g.degree[w] :: Got(g, s, h, Endpoint(w, i), w)
  }

  ghost predicate GotAll(g: Graph, s: State, h: History, n: nat, w: nat)
    requires Shape(g, s) && n in g.degree
  {
    forall i: nat | i < g.degree[n] :: Got(g, s, h, Endpoint(n, i), w)
  }

  /** In a complete wave every member has heard from all its neighbours: by induction
      on the order of joining, a member's parent is done only after the member is. */
  lemma {:induction false} MembersAreDone(g: Graph, s: State, h: History, w: nat, n: nat)
    requires Shape(g, s) && Waves(g, s, h) && Complete(g, s, h, w) && (n, w) in h.join
    ensures n in g.degree && GotAll(g, s, h, n, w)
    decreases h.join[(n, w)].rank
  {
    assert JoinOk(g, s, h, n, w);
    if n != w {
      var e := Endpoint(n, h.join[(n, w)].parent.value);
      var f := g.peer[e];
      assert g.peer[f] == e;
      MembersAreDone(g, s, h, w, f.node);
      assert Got(g, s, h, Endpoint(f.node, f.index), w);
      assert SentOk(g, s, h, e, w);
    }
  }

  lemma MembersAreClosed(g: Graph, s: State, h: History, w: nat, e: Endpoint)
    requires Shape(g, s) && Waves(g, s, h) && Complete(g, s, h, w) && e in g.peer && (e.node, w) in h.join
    ensures (g.peer[e].node, w) in h.join
  {
    MembersAreDone(g, s, h, w, e.node);
    assert Got(g, s, h, Endpoint(e.node, e.index), w);
    assert SentOk(g, s, h, g.peer[e], w);
  }

  /** A complete wave has reached every connector, so its root has the greatest identifier. */
  lemma CompleteWaveReachesAll(g: Graph, s: State, h: History, w: nat)
    requires Shape(g, s) && g.Connected() && Waves(g, s, h) && Complete(g, s, h, w)
    ensures forall n <- g.degree :: (n, w) in h.join && n <= w
  {
    hide Graph.Connected, Graph.Valid;
    var members := set n | n in g.degree && (n, w) in h.join;
    assert g.Closed(members) by {
      forall e | e in g.peer && e.node in members ensures g.peer[e].node in members {
        MembersAreClosed(g, s, h, w, e);
      }
    }
    ClosedIsEverything(g, members, w);
    forall n | n in g.degree ensures (n, w) in h.join && n <= w {
      assert n in members;
      assert JoinOk(g, s, h, n, w);
    }
  }

  /** Waves posted in a turn of connector `n`. */
  ghost function Posted(n: nat, sends: map<nat, Msg>): set<(Endpoint, nat)> {
    set i | i in sends && sends[i].Wave? :: (Endpoint(n, i), sends[i].leader)
  }

  /** Nothing sent in this turn of `n` repeats what is already on the way. */
  ghost predicate FreshOn(g: Graph, s: State, h: History, n: nat, sends: map<nat, Msg>, e: Endpoint)
    requires Shape(g, s) && e in g.peer
  {
    g.peer[e].node == n && g.peer[e].index in sends ==>
      var msg := sends[g.peer[e].index];
      if msg.Wave? then (g.peer[e], msg.leader) !in h.sent else forall m <- s.inbox[e] :: m.Wave?
  }

  lemma QueueAfterTurn(g: Graph, s: State, h: History, n: nat, r: Reaction, h': History, e: Endpoint)
    requires Shape(g, s) && n in g.degree && e in g.peer
    requires FreshOn(g, s, h, n, r.sends, e) && h'.sent == h.sent + Posted(n, r.sends)
    requires QueueOk(g, h, e, s.inbox[e])
    ensures QueueOk(g, h', e, s.inbox[e] + Arriving(g, n, r.sends, e))
  {
    hide Graph.Valid;
    var q, f := s.inbox[e], g.peer[e];
    if f.node == n && f.index in r.sends {
      var msg := r.sends[f.index];
      assert f == Endpoint(n, f.index);
      forall i | 0 <= i < |q| ensures !Clash(q[i], msg) {
        assert q[i].Wave? ==> (f, q[i].leader) in h.sent;
      }
    }
  }

  /** Sending a wave that was never sent before changes nobody's record of what arrived. */
  lemma GotAfterTurn(g: Graph, s: State, h: History, n: nat, r: Reaction, h': History, e: Endpoint, w: nat)
    requires Shape(g, s) && n in g.degree && Shape(g, Turn(g, s, n, r))
    requires e in g.peer ==> FreshOn(g, s, h, n, r.sends, e)
    requires h'.sent == h.sent + Posted(n, r.sends)
    ensures Got(g, Turn(g, s, n, r), h', e, w) <==> Got(g, s, h, e, w)
  {
    hide Graph.Valid;
    if e in g.peer {
      var q, f := s.inbox[e], g.peer[e];
      var more := Arriving(g, n, r.sends, e);
      assert Wave(w) in q + more <==> Wave(w) in q || Wave(w) in more;
      if (f, w) in h'.sent && (f, w) !in h.sent {
        assert f.node == n && more == [Wave(w)];
      }
    }
  }

  lemma GotAfterPop(g: Graph, s: State, h: History, e: Endpoint, f: Endpoint, w: nat)
    requires Shape(g, s) && e in g.peer && s.inbox[e] != [] && Shape(g, Popped(s, e))
    requires QueueOk(g, h, e, s.inbox[e])
    ensures Got(g, Popped(s, e), h, f, w) <==> Got(g, s, h, f, w) || (f == e && s.inbox[e][0] == Wave(w))
  {
    hide Graph.Valid;
    if f == e {
      var q := s.inbox[e];
      assert q == [q[0]] + q[1..];
      assert forall i | 0 < i < |q| :: !Clash(q[0], q[i]);
    }
  }

  /** Progress from `(s, h)` to `(s', h')`: records only accumulate. */
  ghost predicate Grows(g: Graph, s: State, h: History, s': State, h': History)
    requires Shape(g, s) && Shape(g, s')
  {
    && (forall k <- h.join :: k in h'.join && h'.join[k] == h.join[k])
    && h.sent <= h'.sent
    && (forall e, w: nat | Got(g, s, h, e, w) :: Got(g, s', h', e, w))
    && (forall n, w: nat | Reached(s, n, w) :: Reached(s', n, w))
  }

  lemma JoinOkGrows(g: Graph, s: State, h: History, s': State, h': History, n: nat, w: nat)
    requires Shape(g, s) && Shape(g, s') && Grows(g, s, h, s', h')
    requires (n, w) in h.join && JoinOk(g, s, h, n, w)
    ensures (n, w) in h'.join && JoinOk(g, s', h', n, w)
  {
    hide Got, Reached;
  }

  lemma SentOkGrows(g: Graph, s: State, h: History, s': State, h': History, e: Endpoint, w: nat)
    requires Shape(g, s) && Shape(g, s') && Grows(g, s, h, s', h') && SentOk(g, s, h, e, w)
    ensures SentOk(g, s', h', e, w)
  {
    hide Got, Reached;
  }

  /** Enough to check, in each kind of step, that the waves stay in order: what is new. */
  ghost predicate NewOk(g: Graph, s: State, h: History, s': State, h': History)
    requires Shape(g, s) && Shape(g, s')
  {
    && (forall k <- h'.join | k !in h.join :: JoinOk(g, s', h', k.0, k.1))
    && (forall p <- h'.sent | p !in h.sent :: SentOk(g, s', h', p.0, p.1))
    && (forall e <- g.peer :: QueueOk(g, h', e, s'.inbox[e]))
    && (forall e <- g.peer, w: nat | Got(g, s', h', e, w) && !Got(g, s, h, e, w) :: Reached(s', e.node, w))
  }

  lemma WavesGrow(g: Graph, s: State, h: History, s': State, h': History)
    requires Shape(g, s) && Shape(g, s') && Waves(g, s, h)
    requires Grows(g, s, h, s', h') && NewOk(g, s, h, s', h')
    ensures Waves(g, s', h')
  {
    hide Got, Reached, JoinOk, SentOk, QueueOk, Graph.Valid;
    forall k | k in h'.join ensures JoinOk(g, s', h', k.0, k.1) {
      if k in h.join { assert k == (k.0, k.1); JoinOkGrows(g, s, h, s', h', k.0, k.1); }
    }
    forall p | p in h'.sent ensures SentOk(g, s', h', p.0, p.1) {
      if p in h.sent { SentOkGrows(g, s, h, s', h', p.0, p.1); }
    }
  }
}
