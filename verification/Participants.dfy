/** `init_neighborhood` as one connector runs it: fields that are updated in place, and
    messages that are sent one by one. */
module Participants {
  import opened Network
  import opened Setup

  /** The messages of a log of sends that went to endpoint `index`, in order. */
  function To(log: seq<(nat, Msg)>, index: nat): seq<Msg> {
    if log == [] then []
    else To(log[..|log| - 1], index) + (if log[|log| - 1].0 == index then [log[|log| - 1].1] else [])
  }

  /** The log holds exactly the messages that `sends` calls for, one per link. */
  ghost predicate Delivers(log: seq<(nat, Msg)>, sends: map<nat, Msg>) {
    forall i: nat :: To(log, i) == if i in sends then [sends[i]] else []
  }

  lemma ToAppend(log: seq<(nat, Msg)>, index: nat, to: nat, msg: Msg)
    ensures To(log + [(to, msg)], index) == To(log, index) + (if to == index then [msg] else [])
  {
    var all := log + [(to, msg)];
    assert all[..|all| - 1] == log;
  }

  datatype Stage = Waiting | Election | Tree | Done | Panicked | Misbehaving

  class Participant {
    const id: nat
    const degree: nat
    var stage: Stage
    var leader: nat
    var parent: Option<nat>
    var awaiting: set<nat>
    var children: set<nat>
    var outbox: seq<(nat, Msg)>

    constructor (id: nat, degree: nat)
      ensures this.id == id && this.degree == degree && Phase() == Idle && outbox == []
    {
      this.id, this.degree := id, degree;
      stage, leader, parent, awaiting, children, outbox := Waiting, id, None, {}, {}, [];
    }

    function Phase(): Phase
      reads this
    {
      match stage
      case Waiting => Idle
      case Election => Electing(leader, parent, awaiting)
      case Tree => Building(leader, parent, awaiting, children)
      case Done => Settled(leader, parent, children)
      case Panicked => Crashed
      case Misbehaving => Misbehaved
    }

    method Send(index: nat, msg: Msg)
      modifies this`outbox
      ensures outbox == old(outbox) + [(index, msg)]
      ensures forall i: nat :: To(outbox, i) == To(old(outbox), i) + (if i == index then [msg] else [])
    {
      forall i: nat { ToAppend(outbox, i, index, msg); }
      outbox := outbox + [(index, msg)];
    }

    /** Send the current wave over every link but the parent's, and await an echo from each. */
    method DoWave()
      requires outbox == []
      modifies this`outbox, this`awaiting
      ensures awaiting == Others(degree, parent)
      ensures Delivers(outbox, WaveTo(degree, parent, leader))
    {
      awaiting := {};
      var index := 0;
      while index < degree
        invariant index <= degree
        invariant awaiting == Others(index, parent)
        invariant forall i: nat :: To(outbox, i) == if i in awaiting then [Wave(leader)] else []
      {
        if Some(index) != parent {
          Send(index, Wave(leader));
          awaiting := awaiting + {index};
        }
        index := index + 1;
      }
    }

    /** Tell every neighbour how the election ended, then wait for one answer per link. */
    method StartTree()
      requires outbox == []
      modifies this
      ensures leader == old(leader) && parent == old(parent)
      ensures Phase() == Leave(degree, leader, parent).phase
      ensures Delivers(outbox, Leave(degree, leader, parent).sends)
    {
      awaiting, children := {}, {};
      var index := 0;
      while index < degree
        invariant index <= degree && leader == old(leader) && parent == old(parent) && children == {}
        invariant awaiting == Others(index, parent)
        invariant forall i: nat :: To(outbox, i) == if i < index then [TreeMsg(parent, leader, i)] else []
      {
        if Some(index) == parent {
          Send(index, YouAreMyParent);
        } else {
          awaiting := awaiting + {index};
          Send(index, Announce(leader));
        }
        index := index + 1;
      }
      stage := if awaiting == {} then Done else Tree;
    }

    method Begin()
      requires Phase() == Idle
      modifies this
      ensures Phase() == Setup.Begin(id, degree).phase
      ensures Delivers(outbox, Setup.Begin(id, degree).sends)
    {
      outbox, leader, parent, children := [], id, None, {};
      if degree == 0 {
        stage := Done;
        return;
      }
      stage := Election;
      DoWave();
    }

    /** Handle one message; the new fields and the messages sent are those of `OnMessage`. */
    method Receive(index: nat, msg: Msg)
      requires Listening(Phase())
      modifies this
      ensures Phase() == OnMessage(id, degree, old(Phase()), index, msg).phase
      ensures Delivers(outbox, OnMessage(id, degree, old(Phase()), index, msg).sends)
    {
      outbox := [];
      if stage == Election {
        ReceiveInElection(index, msg);
      } else {
        ReceiveInTree(index, msg);
      }
    }

    method ReceiveInElection(index: nat, msg: Msg)
      requires stage == Election && outbox == []
      modifies this
      ensures Phase() == OnElecting(id, degree, old(Phase()), index, msg).phase
      ensures Delivers(outbox, OnElecting(id, degree, old(Phase()), index, msg).sends)
    {
      match msg
      case Announce(treeLeader) =>
        if treeLeader < leader || treeLeader == id {
          stage := Panicked;
        } else {
          leader, parent := treeLeader, Some(index);
          StartTree();
        }
      case Wave(waveLeader) =>
        if waveLeader > leader {
          leader, parent := waveLeader, Some(index);
          DoWave();
          if awaiting == {} {
            assert forall i: nat :: To(outbox, i) == [];
            Send(index, msg);
          }
        } else if waveLeader == leader {
          Echo(index, msg);
        }
      case YouAreMyParent =>
        stage := Misbehaving;
    }

    /** A neighbour replies to the wave that this connector supports. */
    method Echo(index: nat, msg: Msg)
      requires stage == Election && outbox == [] && msg == Wave(leader)
      modifies this
      ensures Phase() == OnElecting(id, degree, old(Phase()), index, msg).phase
      ensures Delivers(outbox, OnElecting(id, degree, old(Phase()), index, msg).sends)
    {
      if index !in awaiting {
        stage := Panicked;
        return;
      }
      awaiting := awaiting - {index};
      if awaiting == {} {
        if parent.Some? {
          Send(parent.value, msg);
        } else {
          StartTree();
        }
      }
    }

    method ReceiveInTree(index: nat, msg: Msg)
      requires stage == Tree && outbox == []
      modifies this
      ensures Phase() == OnBuilding(old(Phase()), index, msg).phase
      ensures Delivers(outbox, OnBuilding(old(Phase()), index, msg).sends)
    {
      if msg.Wave? { return; }
      if index !in awaiting {
        stage := Misbehaving;
        return;
      }
      awaiting := awaiting - {index};
      if msg.YouAreMyParent? {
        children := children + {index};
      }
      if awaiting == {} {
        stage := Done;
      }
    }
  }
}
