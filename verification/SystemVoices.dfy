/** Every port speaks with one voice: whatever is put on it under predicates that can come true together is the same
    payload, in every run, be the putter's owner a native or a protocol component. */
module SystemVoices {
  import opened Network
  import opened Predicates
  import opened Components
  import opened Ports
  import opened System
  import opened SystemInvariant
  import R = Rounds
  import RI = RoundsInvariant
  import L = RoundsLedger
  import N = Native
  import PR = ProtoRuns
  import Programs
  import A = ProtoPaths

  ghost predicate Voices(s: Sys) {
    forall n, r, part | Has(s, n, r, part) :: A.OneVoice(s.comps[(n, r)][part].Outgoing())
  }

  lemma CompOk(w: World, s: Sys, n: nat, r: nat, part: Id)
    requires Inv(w, s) && Has(s, n, r, part)
    ensures Ok(s.comps[(n, r)][part]) && Fits(w, n, r, part, s.comps[(n, r)][part])
  {
    hide WorldOk, RI.Inv, L.Ledger, LogsOk, LinksOk, Matches, Ok, Fits;
  }

  lemma InvWorld(w: World, s: Sys)
    requires Inv(w, s)
    ensures WorldOk(w)
  {
    hide WorldOk, RI.Inv, L.Ledger, LogsOk, LinksOk, Matches, CompsOk;
  }

  /** Whoever put what leads to `q` owns the putter of that channel. */
  lemma PutByOwner(w: World, s: Sys, n: nat, r: nat, part: Id, q: Id, pred: Predicate, bytes: seq<nat>) returns (p: Id)
    requires Inv(w, s) && PutBy(w, s, n, r, part, q, pred, bytes)
    ensures (p, pred, bytes) in s.comps[(n, r)][part].Outgoing()
    ensures p in w.ports(n, r) && w.ports(n, r)[p].peer == Some(q) && w.ports(n, r)[p].owner == part && part.connector == n
  {
    hide Inv, Ok, Binary;
    CompOk(w, s, n, r, part);
    var c := s.comps[(n, r)][part];
    p :| (p, pred, bytes) in c.Outgoing() && p in w.ports(n, r) && w.ports(n, r)[p].peer == Some(q);
    hide PR.PutsOwn;
    SendsOk(c, w.channels, (p, pred, bytes));
  }

  lemma SamePutter(w: World, there: PortMap, n': nat, p': Id, here: PortMap, n: nat, p: Id, q: Id)
    requires TableOk(w, n', there) && TableOk(w, n, here) && TablesAgree(there, here)
    requires p' in there && there[p'].peer == Some(q) && p in here && here[p].peer == Some(q)
    requires there[p'].owner.connector == n' && here[p].owner.connector == n
    ensures p' == p && n' == n
  {
    hide AcrossLink;
    PeerNames(there, p', q);
    PeerNames(here, p, q);
    hide PeersOk, AllPaired, SpecVarFor;
  }

  lemma PeerNames(ports: PortMap, p: Id, q: Id)
    requires PeersOk(ports) && AllPaired(ports) && p in ports && ports[p].peer == Some(q)
    ensures q in ports && ports[q].peer == Some(p)
  {
    assert PeerOk(ports, p);
  }

  /** What leads to one getter comes from one component. */
  lemma OneSource(w: World, s: Sys, r: nat, q: Id, n: nat, part: Id, pred: Predicate, bytes: seq<nat>,
                  n': nat, part': Id, pred': Predicate, bytes': seq<nat>)
    requires Inv(w, s) && PutBy(w, s, n, r, part, q, pred, bytes) && PutBy(w, s, n', r, part', q, pred', bytes')
    ensures n' == n && part' == part
    ensures exists p :: (p, pred, bytes) in s.comps[(n, r)][part].Outgoing() && (p, pred', bytes') in s.comps[(n, r)][part].Outgoing()
  {
    var p := PutByOwner(w, s, n, r, part, q, pred, bytes);
    var p' := PutByOwner(w, s, n', r, part', q, pred', bytes');
    InvWorld(w, s);
    hide Inv, WorldOk, TableOk, TablesAgree, PutBy, Component.Outgoing;
    TablesOk(w, n', r, n);
    TablesOk(w, n, r, n');
    SamePutter(w, w.ports(n', r), n', p', w.ports(n, r), n, p, q);
  }

  /** Messages that came from components that speak with one voice are coherent. */
  lemma CameFromCoherent(w: World, s: Sys, r: nat, log: set<N.Message>)
    requires Inv(w, s) && Voices(s) && forall x <- log :: CameFrom(w, s, r, x)
    ensures Programs.Coherent(log)
  {
    hide Inv, Voices, Consistent, CameFrom;
    forall x, x' | x in log && x' in log && x.getter == x'.getter && Consistent(x.pred, x'.pred) ensures x.payload == x'.payload {
      TwoAgree(w, s, r, x, x');
    }
  }

  lemma TwoAgree(w: World, s: Sys, r: nat, x: N.Message, x': N.Message)
    requires Inv(w, s) && Voices(s) && CameFrom(w, s, r, x) && CameFrom(w, s, r, x') && x.getter == x'.getter && Consistent(x.pred, x'.pred)
    ensures x.payload == x'.payload
  {
    hide Inv, Consistent, PutBy;
    var n :| Origin(w, s, n, r, x.getter, x.pred, x.payload);
    var part :| PutBy(w, s, n, r, part, x.getter, x.pred, x.payload);
    var n' :| Origin(w, s, n', r, x'.getter, x'.pred, x'.payload);
    var part' :| PutBy(w, s, n', r, part', x'.getter, x'.pred, x'.payload);
    OneSource(w, s, r, x.getter, n, part, x.pred, x.payload, n', part', x'.pred, x'.payload);
    PutByHas(w, s, n, r, part, x.getter, x.pred, x.payload);
    hide Origin, Component.Outgoing;
    assert A.OneVoice(s.comps[(n, r)][part].Outgoing());
  }

  lemma PutByHas(w: World, s: Sys, n: nat, r: nat, part: Id, q: Id, pred: Predicate, bytes: seq<nat>)
    requires PutBy(w, s, n, r, part, q, pred, bytes)
    ensures Has(s, n, r, part)
  {
  }

  lemma LogCameFrom(w: World, s: Sys, r: nat, m: nat, b: Id, x: N.Message)
    requires Inv(w, s) && Has(s, m, r, b) && x in s.comps[(m, r)][b].Log()
    ensures CameFrom(w, s, r, x)
  {
    hide WorldOk, RI.Inv, L.Ledger, CompsOk, LinksOk, Matches, CameFrom;
  }

  /** Whatever a component was sent is coherent. */
  lemma LogCoherent(w: World, s: Sys, n: nat, r: nat, part: Id)
    requires Inv(w, s) && Voices(s) && Has(s, n, r, part)
    ensures Programs.Coherent(s.comps[(n, r)][part].Log())
  {
    hide Inv, Voices, CameFrom, Component.Log, Programs.Coherent;
    forall x | x in s.comps[(n, r)][part].Log() ensures CameFrom(w, s, r, x) { LogCameFrom(w, s, r, n, part, x); }
    CameFromCoherent(w, s, r, s.comps[(n, r)][part].Log());
  }

  // ---- every action keeps it ----

  lemma EnterVoices(w: World, s: Sys, n: nat, parts: map<Id, Component>)
    requires R.Shape(w.t, s.net) && Enabled(w, s, Enter(n, parts)) && Voices(s)
    ensures Voices(Next(w, s, Enter(n, parts)))
  {
    hide R.Enabled, R.Next, R.Session.Valid, Fits, Starts, A.OneVoice, Component.Outgoing;
    forall part | part in parts ensures A.OneVoice(parts[part].Outgoing()) { StartsWithOneVoice(parts[part]); }
  }

  lemma StartsWithOneVoice(c: Component)
    requires Starts(c)
    ensures A.OneVoice(c.Outgoing())
  {
    hide Starts, Ok, A.OneVoice;
    StartsOk(c);
    OwnVoice(c);
  }

  lemma FedVoices(w: World, s: Sys, n: nat, part: Id, m: N.Message, c: Component)
    requires Inv(w, s) && Voices(s) && n in s.net.conns && CanFeed(w, s, n, part, m, c) && CameFrom(w, s, s.net.conns[n].round, m)
    ensures Voices(Fed(s, n, part, c))
  {
    hide Inv, CameFrom, Feeds, A.OneVoice, Component.Outgoing, Component.Log;
    var r := s.net.conns[n].round;
    FedOk(w, s, n, part, m, c);
    hide Ok;
    forall x | x in c.Log() ensures CameFrom(w, s, r, x) { if x != m { LogCameFrom(w, s, r, n, part, x); } }
    CameFromCoherent(w, s, r, c.Log());
    OwnVoice(c);
  }

  lemma FedOk(w: World, s: Sys, n: nat, part: Id, m: N.Message, c: Component)
    requires Inv(w, s) && n in s.net.conns && CanFeed(w, s, n, part, m, c) && CameFrom(w, s, s.net.conns[n].round, m)
    ensures Ok(c) && c.Log() == s.comps[(n, s.net.conns[n].round)][part].Log() + {m}
  {
    hide RI.Inv, L.Ledger, CompsOk, LogsOk, LinksOk, Matches, Feeds, Origin, Labelled, WorldOk, Ok, Component.Log;
    var r := s.net.conns[n].round;
    ArrivesLabelled(w, s, n, r, part, m);
    var n' :| Origin(w, s, n', r, m.getter, m.pred, m.payload);
    OriginBinary(w, s, n', r, m.getter, m.pred, m.payload);
    FedComp(w, s, n, r, part, m, c);
  }

  lemma ActionKeepsVoices(w: World, s: Sys, a: Action)
    requires Inv(w, s) && R.Shape(w.t, s.net) && Enabled(w, s, a) && Voices(s)
    ensures Voices(Next(w, s, a))
  {
    hide Inv, R.Enabled, R.Next, R.Session.Valid, Fits, Starts, CanFeed, A.OneVoice;
    match a
    case Net(b) =>
    case Enter(n, parts) => EnterVoices(w, s, n, parts);
    case Submit(n, part, p) =>
    case Send(n, part, o, i) =>
    case FeedLocal(n, part, from, o, c) =>
      var q :| GoesTo(w.ports(n, s.net.conns[n].round), o.0, q, Local) && CanFeed(w, s, n, part, N.Message(q, o.1, o.2), c);
      LocalCameFrom(w, s, n, s.net.conns[n].round, from, o, q);
      FedVoices(w, s, n, part, N.Message(q, o.1, o.2), c);
    case FeedNet(n, part, x, c) =>
      FeedNetOk(w, s, n, part, x, c);
      FedVoices(w, s, n, part, LinkMessage(w, n, x), c);
  }

  lemma {:induction false} RunVoices(w: World, run: seq<Sys>, k: nat)
    requires IsRun(w, run) && k < |run|
    ensures Inv(w, run[k]) && Voices(run[k])
  {
    hide Inv, Enabled, Next, WorldOk;
    RunInv(w, run, k);
    if k == 0 {
      assert run[0].comps == map[];
    } else {
      RunVoices(w, run, k - 1);
      assert Moves(w, run[k - 1], run[k - 1 + 1]);
      var a :| Enabled(w, run[k - 1], a) && run[k] == Next(w, run[k - 1], a);
      ActionKeepsVoices(w, run[k - 1], a);
    }
  }
}
