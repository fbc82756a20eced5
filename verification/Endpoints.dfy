/** `EndpointManager`: how a connector sorts the messages of past, present and future rounds. */
module Endpoints {
  import opened Network
  import opened Rounds

  /** What is left after sorting: the buffers, and the first control message of this round, if any. */
  datatype Sorted = Sorted(delayed: seq<(nat, CommMsg)>, undelayed: seq<(nat, CommMsg)>, payloads: seq<(nat, CommMsg)>,
                           control: Option<(nat, CommMsg)>)

  predicate IsControl(m: CommMsg) { !m.contents.Payload? }

  /** Sort one message that is no longer in any buffer. */
  function Sort(b: Sorted, x: (nat, CommMsg), round: nat): Sorted {
    if x.1.round < round then b
    else if x.1.round > round then b.(delayed := b.delayed + [x])
    else if IsControl(x.1) then b.(control := Some(x))
    else b.(payloads := b.payloads + [x])
  }

  /** Take undelayed messages from the back until one is a control message of this round. */
  function SortUndelayed(b: Sorted, round: nat): Sorted
    requires b.control == None
    decreases |b.undelayed|
  {
    if b.undelayed == [] then b
    else
      var last := |b.undelayed| - 1;
      var next := Sort(b.(undelayed := b.undelayed[..last]), b.undelayed[last], round);
      if next.control.Some? then next else SortUndelayed(next, round)
  }

  /** All messages held, with multiplicity. */
  ghost function Held(b: Sorted): multiset<(nat, CommMsg)> {
    multiset(b.delayed) + multiset(b.undelayed) + multiset(b.payloads) +
      (if b.control.Some? then multiset{b.control.value} else multiset{})
  }

  lemma HeldPop(b: Sorted)
    requires b.undelayed != []
    ensures var last := |b.undelayed| - 1; Held(b) == Held(b.(undelayed := b.undelayed[..last])) + multiset{b.undelayed[last]}
  {
    var front, x := b.undelayed[..|b.undelayed| - 1], b.undelayed[|b.undelayed| - 1];
    assert b.undelayed == front + [x];
    assert multiset(b.undelayed) == multiset(front) + multiset{x};
  }

  lemma SortHolds(b: Sorted, x: (nat, CommMsg), round: nat)
    requires b.control == None
    ensures Held(Sort(b, x, round)) == Held(b) + (if x.1.round < round then multiset{} else multiset{x})
  {
    assert multiset(b.delayed + [x]) == multiset(b.delayed) + multiset{x};
    assert multiset(b.payloads + [x]) == multiset(b.payloads) + multiset{x};
  }

  lemma SortUnfolds(b: Sorted, round: nat)
    requires b.control == None && b.undelayed != []
    ensures var last := |b.undelayed| - 1;
      var next := Sort(b.(undelayed := b.undelayed[..last]), b.undelayed[last], round);
      && SortUndelayed(b, round) == (if next.control.Some? then next else SortUndelayed(next, round))
      && next.undelayed == b.undelayed[..last]
  {
  }

  /** Sorting drops late messages and nothing else: every message of this or a later round is
      still held afterwards, as often as before. */
  lemma {:induction false} SortingKeepsMessages(b: Sorted, round: nat, x: (nat, CommMsg))
    requires b.control == None && x.1.round >= round
    ensures Held(SortUndelayed(b, round))[x] == Held(b)[x]
    decreases |b.undelayed|
  {
    if b.undelayed != [] {
      var last := |b.undelayed| - 1;
      var popped, m := b.(undelayed := b.undelayed[..last]), b.undelayed[last];
      SortUnfolds(b, round);
      hide Held, Sort, SortUndelayed;
      HeldPop(b);
      SortHolds(popped, m, round);
      var next := Sort(popped, m, round);
      if next.control == None { SortingKeepsMessages(next, round, x); }
    }
  }

  /** What sorting hands out belongs to this round, and what it sets aside to later ones. */
  lemma {:induction false} SortingIsTimely(b: Sorted, round: nat)
    requires b.control == None
    requires forall x <- b.delayed :: x.1.round > round
    requires forall x <- b.payloads :: x.1.round == round && !IsControl(x.1)
    ensures var r := SortUndelayed(b, round);
      && (forall x <- r.delayed :: x.1.round > round)
      && (forall x <- r.payloads :: x.1.round == round && !IsControl(x.1))
      && (r.control.Some? ==> r.control.value.1.round == round && IsControl(r.control.value.1))
      && (r.control == None ==> r.undelayed == [])
    decreases |b.undelayed|
  {
    if b.undelayed != [] {
      var last := |b.undelayed| - 1;
      var next := Sort(b.(undelayed := b.undelayed[..last]), b.undelayed[last], round);
      if next.control == None { SortingIsTimely(next, round); }
    }
  }

  /** Messages are taken from the back: the control message handed out is the last one of this
      round, and everything before it stays where it was. */
  lemma {:induction false} SortingTakesTheLast(b: Sorted, round: nat, at: nat)
    requires b.control == None && at < |b.undelayed|
    requires b.undelayed[at].1.round == round && IsControl(b.undelayed[at].1)
    requires forall k | at < k < |b.undelayed| :: b.undelayed[k].1.round != round || !IsControl(b.undelayed[k].1)
    ensures var r := SortUndelayed(b, round); r.control == Some(b.undelayed[at]) && r.undelayed == b.undelayed[..at]
    decreases |b.undelayed|
  {
    var last := |b.undelayed| - 1;
    var next := Sort(b.(undelayed := b.undelayed[..last]), b.undelayed[last], round);
    if at < last {
      SortingTakesTheLast(next, round, at);
      assert next.undelayed[..at] == b.undelayed[..at];
    }
  }

  /** Sorting agrees with how a connector of the session handles the message. */
  lemma SortMatchesHandle(hood: Neighborhood, c: Conn, index: nat, m: CommMsg)
    requires m.round != c.round || !IsControl(m)
    ensures var b := Sort(Sorted(c.delayed, c.undelayed, c.payloads, None), (index, m), c.round);
      Handle(hood, c, index, m).conn == c.(delayed := b.delayed, undelayed := b.undelayed, payloads := b.payloads)
  {
  }

  class EndpointManager {
    var delayed: seq<(nat, CommMsg)>
    var undelayed: seq<(nat, CommMsg)>
    var payloads: seq<(nat, CommMsg)>

    function Buffers(control: Option<(nat, CommMsg)>): Sorted
      reads this
    {
      Sorted(delayed, undelayed, payloads, control)
    }

    method HandleMsg(index: nat, msg: CommMsg, round: nat) returns (control: Option<(nat, CommMsg)>)
      modifies this`delayed, this`payloads
      ensures Buffers(control) == Sort(old(Buffers(None)), (index, msg), round)
    {
      control := None;
      if msg.round < round {
        return;
      }
      if msg.round > round {
        delayed := delayed + [(index, msg)];
        return;
      }
      match msg.contents
      case Payload(_, _) => payloads := payloads + [(index, msg)];
      case Suggest(_) => control := Some((index, msg));
      case Announce(_) => control := Some((index, msg));
    }

    /** The first loop of `try_recv_any_comms`. */
    method RecvUndelayed(round: nat) returns (control: Option<(nat, CommMsg)>)
      modifies this
      ensures Buffers(control) == SortUndelayed(old(Buffers(None)), round)
    {
      control := None;
      while undelayed != []
        invariant SortUndelayed(Buffers(None), round) == SortUndelayed(old(Buffers(None)), round)
        decreases |undelayed|
      {
        var (index, msg) := undelayed[|undelayed| - 1];
        undelayed := undelayed[..|undelayed| - 1];
        control := HandleMsg(index, msg, round);
        if control.Some? {
          return;
        }
      }
      control := None;
    }

    /** Make every delayed message available again. */
    method UndelayAll()
      modifies this`delayed, this`undelayed
      ensures delayed == [] && undelayed == old(undelayed) + old(delayed)
    {
      if undelayed == [] {
        delayed, undelayed := undelayed, delayed;
        return;
      }
      undelayed, delayed := undelayed + delayed, [];
    }
  }

  /** The part of the decision loop that reacts to control messages. */
  class Coordinator {
    const hood: Neighborhood
    var conn: Conn
    var outbox: map<nat, CommMsg>

    constructor (hood: Neighborhood, conn: Conn)
      ensures this.hood == hood && this.conn == conn && outbox == map[]
    {
      this.hood, this.conn, outbox := hood, conn, map[];
    }

    /** End the round with a decision, telling every child. */
    method Decide(d: Decision)
      requires outbox == map[]
      modifies this
      ensures Effect(conn, outbox) == Rounds.Decide(hood, old(conn), d)
      ensures outbox.Keys == hood.children
      ensures forall child <- hood.children :: outbox[child] == CommMsg(old(conn).round, Announce(d))
      ensures conn == old(conn).(round := old(conn).round + 1, syncing := false,
                                 results := old(conn).results[old(conn).round := d])
    {
      var todo := hood.children;
      while todo != {}
        invariant todo <= hood.children && conn == old(conn)
        invariant outbox == map i | i in hood.children - todo :: CommMsg(conn.round, Announce(d))
        decreases todo
      {
        var child :| child in todo;
        outbox := outbox[child := CommMsg(conn.round, Announce(d))];
        todo := todo - {child};
      }
      conn := conn.(round := conn.round + 1, syncing := false, results := conn.results[conn.round := d]);
    }

    method RequestFailure()
      requires outbox == map[]
      modifies this
      ensures Effect(conn, outbox) == Rounds.RequestFailure(hood, old(conn))
      ensures hood.parent == None ==> old(conn).round in conn.results && conn.results[old(conn).round] == Failure
      ensures hood.parent.Some? ==> conn == old(conn).(asked := true)
      ensures hood.parent.Some? && old(conn).asked ==> outbox == map[]
      ensures hood.parent.Some? && !old(conn).asked ==>
        outbox == map[hood.parent.value := CommMsg(old(conn).round, Suggest(Failure))]
    {
      if hood.parent == None {
        Decide(Failure);
      } else if !conn.asked {
        conn := conn.(asked := true);
        outbox := map[hood.parent.value := CommMsg(conn.round, Suggest(Failure))];
      }
    }

    method HandleControl(index: nat, msg: CommMsg)
      requires outbox == map[] && msg.round == conn.round && IsControl(msg)
      modifies this
      ensures Effect(conn, outbox) == Handle(hood, old(conn), index, msg)
    {
      match msg.contents
      case Suggest(suggestion) =>
        if index in hood.children {
          match suggestion
          case Success(p) =>
            var so := if index in conn.heard then conn.heard[index] else {};
            conn := conn.(heard := conn.heard[index := so + {p}]);
          case Failure =>
            RequestFailure();
        }
      case Announce(decision) =>
        if Some(index) == hood.parent {
          Decide(decision);
        }
    }
  }
}
