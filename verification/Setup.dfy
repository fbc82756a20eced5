/** `init_neighborhood`: leader election by echo with extinction, followed by the
    construction of the consensus tree. */
module Setup {
  import opened Network

  datatype Msg =
    | Wave(leader: nat)        // LeaderWave
    | Announce(leader: nat)    // LeaderAnnounce
    | YouAreMyParent

  /** Where a connector is in `init_neighborhood`. `Crashed` is a failed assertion,
      `Misbehaved` is the `SetupAlgMisbehavior` error. */
  datatype Phase =
    | Idle
    | Electing(leader: nat, parent: Option<nat>, awaiting: set<nat>)
    | Building(leader: nat, parent: Option<nat>, awaiting: set<nat>, children: set<nat>)
    | Settled(leader: nat, parent: Option<nat>, children: set<nat>)
    | Crashed
    | Misbehaved

  /** What a connector does in one turn: its next phase, and at most one message per link. */
  datatype Reaction = Reaction(phase: Phase, sends: map<nat, Msg>)

  function Others(degree: nat, parent: Option<nat>): set<nat> {
    set i: nat | i < degree && Some(i) != parent
  }

  function WaveTo(degree: nat, parent: Option<nat>, leader: nat): map<nat, Msg> {
    map i | i in Others(degree, parent) :: Wave(leader)
  }

  function Begin(id: nat, degree: nat): Reaction {
    if degree == 0 then Reaction(Settled(id, None, {}), map[])
    else Reaction(Electing(id, None, Others(degree, None)), WaveTo(degree, None, id))
  }

  function TreeMsg(parent: Option<nat>, leader: nat, index: nat): Msg {
    if Some(index) == parent then YouAreMyParent else Announce(leader)
  }

  /** The election is over: tell every neighbour, then wait for one answer per link. */
  function Leave(degree: nat, leader: nat, parent: Option<nat>): Reaction {
    var awaiting := Others(degree, parent);
    Reaction(if awaiting == {} then Settled(leader, parent, {}) else Building(leader, parent, awaiting, {}),
             map i: nat | i < degree :: TreeMsg(parent, leader, i))
  }

  function OnElecting(id: nat, degree: nat, ph: Phase, index: nat, msg: Msg): Reaction
    requires ph.Electing?
  {
    match msg
    case Announce(leader) =>
      if leader < ph.leader || leader == id then Reaction(Crashed, map[])
      else Leave(degree, leader, Some(index))
    case Wave(leader) =>
      if leader < ph.leader then Reaction(ph, map[])
      else if leader > ph.leader then
        var awaiting := Others(degree, Some(index));
        Reaction(Electing(leader, Some(index), awaiting),
                 if awaiting == {} then map[index := Wave(leader)] else WaveTo(degree, Some(index), leader))
      else if index !in ph.awaiting then Reaction(Crashed, map[])
      else
        var awaiting := ph.awaiting - {index};
        if awaiting != {} then Reaction(Electing(ph.leader, ph.parent, awaiting), map[])
        else if ph.parent.Some? then
          Reaction(Electing(ph.leader, ph.parent, awaiting), map[ph.parent.value := Wave(leader)])
        else Leave(degree, ph.leader, None)
    case YouAreMyParent => Reaction(Misbehaved, map[])
  }

  function OnBuilding(ph: Phase, index: nat, msg: Msg): Reaction
    requires ph.Building?
  {
    if msg.Wave? then Reaction(ph, map[])
    else if index !in ph.awaiting then Reaction(Misbehaved, map[])
    else
      var awaiting := ph.awaiting - {index};
      var children := if msg.YouAreMyParent? then ph.children + {index} else ph.children;
      Reaction(if awaiting == {} then Settled(ph.leader, ph.parent, children)
               else Building(ph.leader, ph.parent, awaiting, children), map[])
  }

  predicate Listening(ph: Phase) { ph.Electing? || ph.Building? }

  function OnMessage(id: nat, degree: nat, ph: Phase, index: nat, msg: Msg): Reaction
    requires Listening(ph)
  {
    if ph.Electing? then OnElecting(id, degree, ph, index, msg) else OnBuilding(ph, index, msg)
  }

  /** All connectors of a session, and the messages travelling towards each endpoint (FIFO). */
  datatype State = State(phases: map<nat, Phase>, inbox: map<Endpoint, seq<Msg>>)

  ghost predicate Init(g: Graph, s: State) {
    && s.phases.Keys == g.degree.Keys && (forall n <- s.phases :: s.phases[n] == Idle)
    && s.inbox.Keys == g.peer.Keys && (forall e <- s.inbox :: s.inbox[e] == [])
  }

  ghost predicate Shape(g: Graph, s: State) {
    g.Valid() && s.phases.Keys == g.degree.Keys && s.inbox.Keys == g.peer.Keys
  }

  /** The message, if any, that a turn of connector `n` puts on the link leading to `e`. */
  ghost function Arriving(g: Graph, n: nat, sends: map<nat, Msg>, e: Endpoint): seq<Msg>
    requires e in g.peer
  {
    if g.peer[e].node == n && g.peer[e].index in sends then [sends[g.peer[e].index]] else []
  }

  ghost function Turn(g: Graph, s: State, n: nat, r: Reaction): State
    requires Shape(g, s)
  {
    State(s.phases[n := r.phase], map e | e in s.inbox :: s.inbox[e] + Arriving(g, n, r.sends, e))
  }

  ghost predicate CanStart(g: Graph, s: State, n: nat) {
    n in s.phases && s.phases[n] == Idle
  }

  ghost function Start(g: Graph, s: State, n: nat): State
    requires Shape(g, s) && CanStart(g, s, n)
  {
    Turn(g, s, n, Begin(n, g.degree[n]))
  }

  ghost predicate CanReceive(g: Graph, s: State, e: Endpoint) {
    e in s.inbox && e.node in s.phases && s.inbox[e] != [] && Listening(s.phases[e.node])
  }

  ghost function Popped(s: State, e: Endpoint): State
    requires e in s.inbox && s.inbox[e] != []
  {
    s.(inbox := s.inbox[e := s.inbox[e][1..]])
  }

  ghost function React(g: Graph, s: State, e: Endpoint): Reaction
    requires Shape(g, s) && CanReceive(g, s, e)
  {
    OnMessage(e.node, g.degree[e.node], s.phases[e.node], e.index, s.inbox[e][0])
  }

  ghost function Receive(g: Graph, s: State, e: Endpoint): State
    requires Shape(g, s) && CanReceive(g, s, e)
  {
    Turn(g, Popped(s, e), e.node, React(g, s, e))
  }

  /** One connector takes one turn: it calls `connect`, or it handles one message. */
  ghost predicate Step(g: Graph, s: State, s': State)
    requires Shape(g, s)
  {
    || (exists n | CanStart(g, s, n) :: s' == Start(g, s, n))
    || (exists e | CanReceive(g, s, e) :: s' == Receive(g, s, e))
  }
}
