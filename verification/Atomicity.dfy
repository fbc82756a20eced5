/** What a decision means in every run of the runtime: the two ends of every channel, wherever their owners live,
    agree on whether a message was exchanged, and on which. */
module Atomicity {
  import opened Network
  import opened Predicates
  import opened Components
  import opened Ports
  import opened System
  import opened SystemInvariant
  import opened SystemVoices
  import R = Rounds
  import RI = RoundsInvariant
  import RT = RoundsTheorems
  import L = RoundsLedger
  import N = Native
  import PR = ProtoRuns
  import PC = ProtoCommits
  import A = ProtoPaths
  import Programs

  /** Connector `n` has completed round `r` with this decision. */
  ghost predicate Decided(s: Sys, n: nat, r: nat, pred: Predicate) {
    n in s.net.conns && r in s.net.conns[n].results && s.net.conns[n].results[r] == R.Success(pred)
  }

  /** The component commits the branch under `k`: one that has ended within the decision. */
  ghost predicate Commits(s: Sys, n: nat, r: nat, part: Id, pred: Predicate, k: Predicate) {
    Has(s, n, r, part) && Decided(s, n, r, pred) && s.comps[(n, r)][part].Ended(k) && Within(k, pred)
  }

  /** The putter `p` of component `a` here and the getter `q` of component `b` there are the ends of one channel. */
  ghost predicate Channel(w: World, r: nat, n: nat, a: Id, p: Id, m: nat, b: Id, q: Id) {
    var here, there := w.ports(n, r), w.ports(m, r);
    && p in here && here[p].polarity == Putter && here[p].owner == a && here[p].peer == Some(q)
    && q in there && there[q].polarity == Getter && there[q].owner == b
  }

  /** The state occurs in some run of the runtime. */
  ghost predicate Reachable(w: World, s: Sys) {
    exists run :: IsRun(w, run) && s == run[|run| - 1]
  }

  lemma ReachableInv(w: World, s: Sys)
    requires Reachable(w, s)
    ensures Inv(w, s) && Voices(s)
  {
    hide Inv, WorldOk, Init, Moves, Voices;
    var run :| IsRun(w, run) && s == run[|run| - 1];
    RunVoices(w, run, |run| - 1);
  }

  /** The components of a connector carry its number. */
  lemma LocalPart(w: World, s: Sys, n: nat, r: nat, part: Id)
    requires Inv(w, s) && Has(s, n, r, part)
    ensures part.connector == n
  {
    hide Inv, Ok;
    CompOk(w, s, n, r, part);
  }

  /** All that completed the round have the same decision. */
  lemma OneDecision(w: World, s: Sys, n: nat, m: nat, r: nat, predN: Predicate, predM: Predicate)
    requires Inv(w, s) && Decided(s, n, r, predN) && Decided(s, m, r, predM)
    ensures predN == predM
  {
    hide WorldOk, L.Ledger, LogsOk, LinksOk, Matches, CompsOk, RI.Inv, R.Session.Valid;
    InvShape(w, s);
    RT.ResultIsRoots(w.t, s.net, n, r);
    RT.ResultIsRoots(w.t, s.net, m, r);
  }

  /** A committed branch has used a port of its component iff the decision makes the port's variable fire. */
  lemma CommittedUse(w: World, s: Sys, n: nat, r: nat, part: Id, pred: Predicate, k: Predicate, p: Id)
    requires Inv(w, s) && Commits(s, n, r, part, pred, k) && p in w.ports(n, r) && w.ports(n, r)[p].owner == part
    ensures w.ports(n, r)[p].peer.Some? && SpecVarFor(w.ports(n, r), p) in pred
    ensures s.comps[(n, r)][part].Used(k, p) <==> pred[SpecVarFor(w.ports(n, r), p)] == FIRING
  {
    hide Inv, Ok, PR.PutsOwn, KnowsChannels, Within, Component.Used, Component.Vars, Component.Owned, Component.Ended;
    CompOk(w, s, n, r, part);
    UsedExactlyWhenFiring(s.comps[(n, r)][part], k, pred, p);
  }

  /** Atomicity: in every state of every run, if connectors `n` and `m`, possibly one and the same, have completed
      round `r` with success, then the committed branch owning a channel's putter put on it if and only if the
      committed branch owning its getter got from it; and what it got is the payload that was put. */
  lemma Atomic(w: World, s: Sys, r: nat, n: nat, a: Id, p: Id, ka: Predicate, predN: Predicate,
               m: nat, b: Id, q: Id, kb: Predicate, predM: Predicate)
    requires Reachable(w, s) && Commits(s, n, r, a, predN, ka) && Commits(s, m, r, b, predM, kb) && Channel(w, r, n, a, p, m, b, q)
    ensures s.comps[(n, r)][a].Used(ka, p) <==> s.comps[(m, r)][b].Used(kb, q)
    ensures s.comps[(m, r)][b].Used(kb, q) ==>
      q in s.comps[(m, r)][b].Received(kb) && s.comps[(n, r)][a].Puts(ka, p, s.comps[(m, r)][b].Received(kb)[q])
  {
    hide Reachable, Inv, Voices, Component.Used, Component.Ended, Component.Puts, Component.Received, Within;
    ReachableInv(w, s);
    BothUse(w, s, r, n, a, p, ka, predN, m, b, q, kb, predM);
    if s.comps[(m, r)][b].Used(kb, q) { ReceivedWhatWasPut(w, s, r, n, a, p, ka, predN, m, b, q, kb, predM); }
  }

  lemma BothUse(w: World, s: Sys, r: nat, n: nat, a: Id, p: Id, ka: Predicate, predN: Predicate,
                m: nat, b: Id, q: Id, kb: Predicate, predM: Predicate)
    requires Inv(w, s) && Commits(s, n, r, a, predN, ka) && Commits(s, m, r, b, predM, kb) && Channel(w, r, n, a, p, m, b, q)
    ensures s.comps[(n, r)][a].Used(ka, p) <==> s.comps[(m, r)][b].Used(kb, q)
  {
    hide Inv, Component.Used, Component.Ended, Within;
    OneDecision(w, s, n, m, r, predN, predM);
    CommittedUse(w, s, n, r, a, predN, ka, p);
    CommittedUse(w, s, m, r, b, predM, kb, q);
  }

  /** The native never panics when it commits: in every run, a decision recorded anywhere finds an ended branch of
      the native of every connector. */
  lemma NativeCommits(w: World, s: Sys, r: nat, n: nat, pred: Predicate, m: nat, native: Id)
    requires Reachable(w, s) && Decided(s, n, r, pred)
    requires Has(s, m, r, native) && s.comps[(m, r)][native].Native?
    ensures exists k :: s.comps[(m, r)][native].Ended(k) && Within(k, pred)
  {
    hide Reachable, Inv, Within, Ok, Fits;
    ReachableInv(w, s);
    CompOk(w, s, m, r, native);
    var k := SomethingSubmitted(w, s, r, n, pred, m, native);
    SubmittedEnds(s.comps[(m, r)][native], k);
  }

  /** A protocol component panics when it commits only if a branch was overtaken: in every run, a decision recorded
      anywhere finds an ended branch of every component, or one within the decision that has not ended and waits for
      a message it has. */
  lemma ProtocolCommits(w: World, s: Sys, r: nat, n: nat, pred: Predicate, m: nat, part: Id)
    requires Reachable(w, s) && Decided(s, n, r, pred) && Has(s, m, r, part) && s.comps[(m, r)][part].Protocol?
    ensures var c := s.comps[(m, r)][part];
      (exists k :: c.Ended(k) && Within(k, pred)) || PC.HasOvertaken(c.agent, c.pst.branches, pred)
  {
    hide Reachable, Inv, Voices, Within, Ok, Fits, Component.Ended, Component.Log, PC.Overtaken;
    ReachableInv(w, s);
    CompOk(w, s, m, r, part);
    LogCoherent(w, s, m, r, part);
    var p := SomethingSubmitted(w, s, r, n, pred, m, part);
    var c := s.comps[(m, r)][part];
    SubmittedIsFound(c, p);
    if exists k :: c.Ended(k) && Within(k, p) {
      var k :| c.Ended(k) && Within(k, p);
      PR.WithinTrans(k, p, pred);
    } else if !c.Ended(p) {
      var k :| k in c.pst.branches && PC.Overtaken(c.agent, c.pst.branches[k]) && Within(k, p);
      PR.WithinTrans(k, p, pred);
    }
  }

  lemma SomethingSubmitted(w: World, s: Sys, r: nat, n: nat, pred: Predicate, m: nat, part: Id) returns (k: Predicate)
    requires Inv(w, s) && Decided(s, n, r, pred) && Has(s, m, r, part)
    ensures k in s.comps[(m, r)][part].Submitted() && Within(k, pred)
  {
    hide WorldOk, L.Ledger, LogsOk, LinksOk, CompsOk, RI.Inv, R.Session.Valid, Within;
    InvShape(w, s);
    RT.SuccessSupported(w.t, s.net, n, r, m);
    assert MatchesAt(s, m, r);
    k :| k in s.net.conns[m].locals[r][part] && Within(k, pred);
  }

  lemma SubmittedEnds(c: Component, k: Predicate)
    requires Ok(c) && c.Native? && k in c.Submitted()
    ensures c.Ended(k)
  {
    hide N.BranchesOk, N.OnlyPuts, N.SentMinimal, N.Complete;
  }

  // ---- payloads ----

  /** A message for the getter of a channel can only have been put by the owner of the channel's putter. */
  lemma OnlyOwnerPuts(w: World, s: Sys, r: nat, n: nat, a: Id, p: Id, m: nat, b: Id, q: Id, n': nat, part: Id, pred: Predicate, bytes: seq<nat>)
    requires Inv(w, s) && Channel(w, r, n, a, p, m, b, q) && a.connector == n && PutBy(w, s, n', r, part, q, pred, bytes)
    ensures n' == n && part == a && Has(s, n, r, a) && (p, pred, bytes) in s.comps[(n, r)][a].Outgoing()
  {
    PutByHas(w, s, n', r, part, q, pred, bytes);
    var p' := PutByOwner(w, s, n', r, part, q, pred, bytes);
    InvWorld(w, s);
    hide Inv, WorldOk, TableOk, TablesAgree, PutBy, Component.Outgoing;
    TablesOk(w, n', r, n);
    TablesOk(w, n, r, n');
    SamePutter(w, w.ports(n', r), n', p', w.ports(n, r), n, p, q);
  }

  /** Where a message in a component's log came from, if it arrived on the channel. */
  lemma LoggedWasPut(w: World, s: Sys, r: nat, n: nat, a: Id, p: Id, m: nat, b: Id, q: Id, x: N.Message)
    requires Inv(w, s) && Channel(w, r, n, a, p, m, b, q) && a.connector == n && CameFrom(w, s, r, x) && x.getter == q
    ensures Has(s, n, r, a) && (p, x.pred, x.payload) in s.comps[(n, r)][a].Outgoing()
  {
    hide Inv, PutBy;
    var n' :| Origin(w, s, n', r, x.getter, x.pred, x.payload);
    var part :| PutBy(w, s, n', r, part, q, x.pred, x.payload);
    OnlyOwnerPuts(w, s, r, n, a, p, m, b, q, n', part, x.pred, x.payload);
  }

  /** In every run, whatever a branch has received on a channel was put there by the owner of its putter, under a
      predicate that the branch's key contains. */
  lemma ReceivedWasPut(w: World, s: Sys, r: nat, n: nat, a: Id, p: Id, m: nat, b: Id, q: Id, k: Predicate) returns (pred: Predicate)
    requires Reachable(w, s) && Channel(w, r, n, a, p, m, b, q) && a.connector == n && Has(s, m, r, b) && q in s.comps[(m, r)][b].Received(k)
    ensures Has(s, n, r, a) && Within(pred, k)
    ensures (p, pred, s.comps[(m, r)][b].Received(k)[q]) in s.comps[(n, r)][a].Outgoing()
  {
    hide Reachable, Inv, Ok, Fits, Channel, Within, CameFrom, Component.Received, Component.Log, Component.Outgoing;
    ReachableInv(w, s);
    CompOk(w, s, m, r, b);
    var x := ReceivedFrom(s.comps[(m, r)][b], k, q);
    LogCameFrom(w, s, r, m, b, x);
    LoggedWasPut(w, s, r, n, a, p, m, b, q, x);
    pred := x.pred;
  }

  /** What the getter's committed branch received, be it a native or a protocol component, on the same connector or
      another, is what the committed branch of the putter's owner put. */
  lemma ReceivedWhatWasPut(w: World, s: Sys, r: nat, n: nat, a: Id, p: Id, ka: Predicate, predN: Predicate,
                           m: nat, b: Id, q: Id, kb: Predicate, predM: Predicate)
    requires Reachable(w, s) && Commits(s, n, r, a, predN, ka) && Commits(s, m, r, b, predM, kb) && Channel(w, r, n, a, p, m, b, q)
    requires s.comps[(m, r)][b].Used(kb, q)
    ensures q in s.comps[(m, r)][b].Received(kb) && s.comps[(n, r)][a].Puts(ka, p, s.comps[(m, r)][b].Received(kb)[q])
  {
    hide Reachable, Inv, Voices, Component.Received, Component.Used, Component.Puts, Component.Outgoing, Component.Ended, Within;
    ReachableInv(w, s);
    LocalPart(w, s, n, r, a);
    GetterReceived(w, s, r, m, b, q, kb);
    OneDecision(w, s, n, m, r, predN, predM);
    BothUse(w, s, r, n, a, p, ka, predN, m, b, q, kb, predM);
    var pred := ReceivedWasPut(w, s, r, n, a, p, m, b, q, kb);
    PR.WithinTrans(pred, kb, predM);
    PutAsSent(w, s, r, n, a, p, ka, predN, pred, s.comps[(m, r)][b].Received(kb)[q]);
  }

  /** A getter that was used has received. */
  lemma GetterReceived(w: World, s: Sys, r: nat, m: nat, b: Id, q: Id, kb: Predicate)
    requires Inv(w, s) && Has(s, m, r, b) && q in w.ports(m, r) && w.ports(m, r)[q].polarity == Getter && w.ports(m, r)[q].owner == b
    requires s.comps[(m, r)][b].Used(kb, q)
    ensures q in s.comps[(m, r)][b].Received(kb)
  {
    hide Inv, Ok, Component.Used, Component.Received, PR.PutsOwn, KnowsChannels;
    CompOk(w, s, m, r, b);
    UsedGetter(s.comps[(m, r)][b], kb, q);
  }

  /** What the owner of a putter sent within the decision is what its committed branch put. */
  lemma PutAsSent(w: World, s: Sys, r: nat, n: nat, a: Id, p: Id, ka: Predicate, decision: Predicate, pred: Predicate, bytes: seq<nat>)
    requires Inv(w, s) && Voices(s) && Commits(s, n, r, a, decision, ka) && p in w.ports(n, r) && w.ports(n, r)[p].polarity == Putter && w.ports(n, r)[p].owner == a
    requires s.comps[(n, r)][a].Used(ka, p) && (p, pred, bytes) in s.comps[(n, r)][a].Outgoing() && Within(pred, decision)
    ensures s.comps[(n, r)][a].Puts(ka, p, bytes)
  {
    hide Inv, Ok, Component.Used, Component.Outgoing, Component.Puts, Component.Ended, PR.PutsOwn, KnowsChannels, Within, A.OneVoice;
    CompOk(w, s, n, r, a);
    var c := s.comps[(n, r)][a];
    var was := UsedPutter(c, ka, p);
    if c.Native? { NativePut(c, p, pred, bytes, ka, decision); } else { SameVoice(c, ka, decision, p, pred, bytes, was); }
  }

  lemma SameVoice(c: Component, k: Predicate, decision: Predicate, p: Id, pred: Predicate, bytes: seq<nat>, was: seq<nat>)
    requires c.Protocol? && A.OneVoice(c.Outgoing()) && Within(k, decision) && Within(pred, decision)
    requires (p, pred, bytes) in c.Outgoing() && c.Puts(k, p, was)
    ensures bytes == was
  {
    hide Within, Consistent;
    var pred' :| (p, pred', was) in c.pst.outgoing && Within(pred', k);
    PR.WithinTrans(pred', k, decision);
    Programs.WithinBoth(pred, pred', decision);
  }

  lemma NativePut(c: Component, p: Id, pred: Predicate, bytes: seq<nat>, k: Predicate, decision: Predicate)
    requires Ok(c) && c.Native? && (p, pred, bytes) in c.Outgoing() && c.Ended(k) && Within(k, decision) && Within(pred, decision)
    ensures c.Puts(k, p, bytes)
  {
    hide N.Complete, N.Kept, N.SentMinimal, N.Sound, N.PutsOut;
    var s := c.nst;
    assert N.BranchOk(c.nctx, s.log, k, s.branches[k]);
    N.CommittedBy(c.nctx, s.log, k, s.branches[k], decision);
    N.ReceivedIsPut(c.nctx, s.log, s.branches, (p, pred, bytes), decision, s.branches[k].index);
    hide Ok;
    NativeHasSent(c, k, p);
  }

  /** The assertions on repeated payloads never fire: in every run, a message on its way to a getter agrees with
      whatever any branch that may receive it has received on that port before. */
  lemma RepeatedPayloadsAgree(w: World, s: Sys, r: nat, m: nat, b: Id, k: Predicate, x: N.Message)
    requires Reachable(w, s) && Has(s, m, r, b) && x.getter in s.comps[(m, r)][b].Received(k) && CameFrom(w, s, r, x) && Consistent(k, x.pred)
    ensures s.comps[(m, r)][b].Received(k)[x.getter] == x.payload
  {
    hide Reachable, Inv, Voices, Ok, Fits, Component.Received, Component.Log, CameFrom, Within, Consistent;
    ReachableInv(w, s);
    CompOk(w, s, m, r, b);
    var y := ReceivedFrom(s.comps[(m, r)][b], k, x.getter);
    LogCameFrom(w, s, r, m, b, y);
    ConsistentParts(y.pred, k, x.pred);
    TwoAgree(w, s, r, y, x);
  }

  /** So every message that arrives can be fed: it contradicts no branch of the component it is for. */
  lemma ArrivesWithoutContradiction(w: World, s: Sys, r: nat, m: nat, b: Id, x: N.Message)
    requires Reachable(w, s) && Has(s, m, r, b) && CameFrom(w, s, r, x)
    ensures var c := s.comps[(m, r)][b];
      if c.Native? then x.getter in c.nctx.vars ==> !N.Contradicted(c.nctx, c.nst.branches, x) else !PR.Contradicted(c.pst.branches, x)
  {
    hide Reachable, CameFrom, Consistent;
    var c := s.comps[(m, r)][b];
    if c.Native? {
      forall k | k in c.nst.branches && x.getter in c.nctx.vars && N.Accepts(c.nctx, k, x) ensures !N.Mismatch(c.nst.branches[k], x) {
        if x.getter in c.Received(k) { RepeatedPayloadsAgree(w, s, r, m, b, k, x); }
      }
    } else {
      forall k | k in c.pst.branches && Consistent(k, x.pred) ensures !PR.Mismatch(c.pst.branches[k], x) {
        if x.getter in c.Received(k) { RepeatedPayloadsAgree(w, s, r, m, b, k, x); }
      }
    }
  }

  lemma ConsistentParts(p: Predicate, k: Predicate, q: Predicate)
    requires Within(p, k) && Consistent(k, q)
    ensures Consistent(p, q)
  {
  }
}
