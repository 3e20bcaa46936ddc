/**
 * The server and the pages together, with the network in between. A page's edit changes its
 * own fields at once and queues the message it emits; the server handles a page's queued
 * messages one at a time, in order; each message the server sends a page arrives later, in
 * order. Every one of these is a separate action, so a page can edit while messages to it or
 * from it are still on the way.
 *
 * Pages stay in step with the server's record when each edit is made while nothing is in
 * flight (`ClientsStayInStep`). Without that discipline they need not: two pages that type a
 * title at once end up showing different titles for good (`RacingTitlesDiverge`), and an edit
 * made from a stale copy undoes another page's edit on the server and on that page, while
 * the stale page loses its own (`StaleEpisodeLosesTitle`).
 */
module Sync {
  import opened Wire
  import Client
  import Server

  type SessionId = Server.SessionId

  /**
   * The server, and for every page that ever connected: its fields, how many of the messages
   * the server sent it have arrived, and the messages it emitted that the server has not
   * handled yet.
   */
  datatype World = World(
    hub: Server.Hub,
    views: map<SessionId, Client.Fields>,
    seen: map<SessionId, nat>,
    unsent: map<SessionId, seq<Message>>)

  /**
   * What can happen next: a page opens, a user types, the server handles a page's oldest
   * queued message, a page takes in the oldest message sent to it, a page closes.
   */
  datatype Action =
    | Open
    | TypeCurl(id: SessionId, val: string)
    | TypeMeta(id: SessionId, key: string, val: string)
    | Upload(id: SessionId)
    | Deliver(id: SessionId)
    | Close(id: SessionId)

  /** A local edit: the page's fields change now, the message waits for the server. */
  function Edited(w: World, id: SessionId, e: Client.Edit): World
    requires id in w.views && id in w.unsent
  {
    w.(views := w.views[id := e.fields], unsent := w.unsent[id := w.unsent[id] + [e.sent]])
  }

  /** A page opens: the server takes a new socket, and the page starts empty with nothing seen or queued. */
  function Opened(w: World): World {
    var (h, id) := Server.HandleConnect(w.hub);
    World(h, w.views[id := Client.Initial], w.seen[id := 0], w.unsent[id := []])
  }

  function Act(w: World, a: Action): World {
    match a
    case Open => Opened(w)
    case TypeCurl(id, val) =>
      if id in w.hub.sessions && id in w.views && id in w.unsent then Edited(w, id, Client.UpdateCurl(w.views[id], val)) else w
    case TypeMeta(id, key, val) =>
      if id in w.hub.sessions && id in w.views && id in w.unsent then Edited(w, id, Client.UpdateMeta(w.views[id], key, val)) else w
    case Upload(id) =>
      if id in w.hub.sessions && id in w.unsent && w.unsent[id] != [] then
        w.(hub := Server.Receive(w.hub, id, w.unsent[id][0]), unsent := w.unsent[id := w.unsent[id][1..]])
      else w
    case Deliver(id) =>
      if id in w.hub.sessions && id in w.hub.outbox && id in w.views && id in w.seen && w.seen[id] < |w.hub.outbox[id]| then
        w.(views := w.views[id := Client.Receive(w.views[id], w.hub.outbox[id][w.seen[id]])], seen := w.seen[id := w.seen[id] + 1])
      else w
    case Close(id) =>
      if id in w.hub.sessions then w.(hub := Server.HandleDisconnect(w.hub, id)) else w
  }

  function RunWorld(w: World, actions: seq<Action>): World {
    if actions == [] then w else Act(RunWorld(w, actions[..|actions| - 1]), actions[|actions| - 1])
  }

  const Begin: World := World(Server.Start, map[], map[], map[])

  /** Every page that ever connected has fields, a position in its outbox and a queue. */
  ghost predicate Tracked(w: World) {
    && Server.Valid(w.hub)
    && w.views.Keys == w.hub.outbox.Keys
    && w.seen.Keys == w.hub.outbox.Keys
    && w.unsent.Keys == w.hub.outbox.Keys
    && forall id | id in w.seen :: w.seen[id] <= |w.hub.outbox[id]|
  }

  /** The messages sent to a page that have not arrived yet. */
  ghost function Pending(w: World, id: SessionId): seq<Message>
    requires Tracked(w) && id in w.hub.outbox
  {
    w.hub.outbox[id][w.seen[id]..]
  }

  /** Nothing is in flight: no connected page has a message on the way to it or from it. */
  ghost predicate Quiet(w: World) {
    && Tracked(w)
    && forall id | id in w.hub.sessions :: w.unsent[id] == [] && Pending(w, id) == []
  }

  /** The discipline: a user types only while nothing is in flight. */
  ghost predicate Polite(w: World, a: Action) {
    (a.TypeCurl? || a.TypeMeta?) ==> Quiet(w)
  }

  ghost predicate Disciplined(w: World, actions: seq<Action>) {
    actions == [] ||
    (Disciplined(w, actions[..|actions| - 1]) && Polite(RunWorld(w, actions[..|actions| - 1]), actions[|actions| - 1]))
  }

  /** The page's fields are the server's record. */
  ghost predicate Mirrors(f: Client.Fields, s: Server.Shared) {
    f == Client.Fields(s.curl, Str(s.title), Str(s.episode))
  }

  /** A message a page's own edit emits while its fields are strings. */
  predicate Honest(m: Message) {
    match m
    case InitState(_) => false
    case CurlUpdate(curl) => curl.Str?
    case MetaUpdate(meta) => Get(meta, "title").Str? && Get(meta, "episode").Str?
  }

  /** No page has a message on the way to the server, and each page will mirror the record once its messages arrive. */
  ghost predicate Settled(w: World) {
    && Tracked(w)
    && w.hub.state.curl.Str?
    && (forall id | id in w.hub.sessions :: w.unsent[id] == [])
    && forall id | id in w.hub.sessions :: Mirrors(Client.ReceiveAll(w.views[id], Pending(w, id)), w.hub.state)
  }

  /**
   * Page `a` has one message on the way to the server and nothing on the way to it, and already
   * shows the record as that message will leave it; every other page will mirror the present
   * record once its messages arrive.
   */
  ghost predicate Sending(w: World, a: SessionId) {
    && Tracked(w)
    && w.hub.state.curl.Str?
    && a in w.hub.sessions
    && |w.unsent[a]| == 1 && Honest(w.unsent[a][0])
    && Pending(w, a) == []
    && Mirrors(w.views[a], Server.Receive(w.hub, a, w.unsent[a][0]).state)
    && (forall id | id in w.hub.sessions && id != a :: w.unsent[id] == [])
    && forall id | id in w.hub.sessions && id != a :: Mirrors(Client.ReceiveAll(w.views[id], Pending(w, id)), w.hub.state)
  }

  ghost predicate InStep(w: World) {
    Settled(w) || exists a :: Sending(w, a)
  }

  /**
   * A page that mirrors the record and takes in an update another page emitted then mirrors
   * the record as the server's handler left it: the two sides apply such a message alike.
   */
  lemma HonestReceive(f: Client.Fields, h: Server.Hub, sender: SessionId, m: Message)
    requires Mirrors(f, h.state) && Honest(m) && sender in h.sessions
    ensures Mirrors(Client.Receive(f, m), Server.Receive(h, sender, m).state)
    ensures h.state.curl.Str? ==> Server.Receive(h, sender, m).state.curl.Str?
  {
  }

  /** The edit a typing action makes on a page's fields. */
  function EditOf(f: Client.Fields, a: Action): Client.Edit
    requires a.TypeCurl? || a.TypeMeta?
  {
    if a.TypeCurl? then Client.UpdateCurl(f, a.val) else Client.UpdateMeta(f, a.key, a.val)
  }

  /** An edit on a page that shows the record emits an honest message, and the page already shows the record as the server will leave it. */
  lemma EditAgrees(f: Client.Fields, h: Server.Hub, id: SessionId, a: Action)
    requires Mirrors(f, h.state) && id in h.sessions && (a.TypeCurl? || a.TypeMeta?)
    ensures Honest(EditOf(f, a).sent)
    ensures Mirrors(EditOf(f, a).fields, Server.Receive(h, id, EditOf(f, a).sent).state)
  {
  }

  /** A page's edit, made while everything is quiet, starts the sending phase. */
  lemma EditStartsSending(w: World, a: Action)
    requires Settled(w) && Quiet(w) && (a.TypeCurl? || a.TypeMeta?)
    requires a.id in w.hub.sessions
    ensures Sending(Act(w, a), a.id)
  {
    var id := a.id;
    var e := EditOf(w.views[id], a);
    var w' := Edited(w, id, e);
    assert Act(w, a) == w';
    assert Client.ReceiveAll(w.views[id], Pending(w, id)) == w.views[id];
    EditAgrees(w.views[id], w.hub, id, a);
    EditLeavesOthers(w, id, e);
    assert w'.unsent[id] == [e.sent];
  }

  /** A page's local edit touches neither the server nor any other page. */
  lemma EditLeavesOthers(w: World, id: SessionId, e: Client.Edit)
    requires Settled(w) && id in w.hub.sessions
    ensures var w' := Edited(w, id, e);
      && Tracked(w') && w'.hub == w.hub
      && Pending(w', id) == Pending(w, id)
      && (forall other | other in w'.hub.sessions && other != id :: w'.unsent[other] == [])
      && forall other | other in w'.hub.sessions && other != id ::
           Mirrors(Client.ReceiveAll(w'.views[other], Pending(w', other)), w'.hub.state)
  {
    var w' := Edited(w, id, e);
    forall other | other in w'.hub.sessions && other != id
      ensures Mirrors(Client.ReceiveAll(w'.views[other], Pending(w', other)), w'.hub.state)
    {
      assert Pending(w', other) == Pending(w, other);
    }
  }

  /** The server handles page `a`'s oldest queued message. */
  lemma UploadForm(w: World, a: SessionId)
    requires Tracked(w) && a in w.hub.sessions && w.unsent[a] != []
    ensures Act(w, Upload(a)) == w.(hub := Server.Receive(w.hub, a, w.unsent[a][0]), unsent := w.unsent[a := w.unsent[a][1..]])
  {
  }

  /** Another page is sent the handled message, which moves it along with the record. */
  lemma UploadReaches(w: World, w': World, a: SessionId, id: SessionId)
    requires Sending(w, a) && id in w.hub.sessions && id != a
    requires w' == w.(hub := Server.Receive(w.hub, a, w.unsent[a][0]), unsent := w.unsent[a := []])
    requires Tracked(w')
    ensures Mirrors(Client.ReceiveAll(w'.views[id], Pending(w', id)), w'.hub.state)
  {
    var m := w.unsent[a][0];
    assert w'.hub.outbox[id] == w.hub.outbox[id] + [m];
    assert Pending(w', id) == Pending(w, id) + [m];
    Client.ReceiveAllLast(w.views[id], Pending(w, id), m);
    HonestReceive(Client.ReceiveAll(w.views[id], Pending(w, id)), w.hub, a, m);
  }

  /** The server handles the one queued message: every page is settled again. */
  lemma UploadSettles(w: World, a: SessionId)
    requires Sending(w, a)
    ensures Settled(Act(w, Upload(a)))
  {
    var m := w.unsent[a][0];
    UploadForm(w, a);
    var w' := w.(hub := Server.Receive(w.hub, a, m), unsent := w.unsent[a := []]);
    assert w.unsent[a][1..] == [];
    assert Tracked(w');
    forall id | id in w'.hub.sessions
      ensures Mirrors(Client.ReceiveAll(w'.views[id], Pending(w', id)), w'.hub.state)
    {
      if id == a {
        assert Pending(w', id) == Pending(w, id);
      } else {
        UploadReaches(w, w', a, id);
      }
    }
  }

  /** A message arriving at a page leaves what the page will show once all have arrived. */
  lemma DeliverKeeps(w: World, id: SessionId, other: SessionId)
    requires Tracked(w) && id in w.hub.sessions && other in w.hub.outbox
    requires w.seen[id] < |w.hub.outbox[id]|
    ensures Tracked(Act(w, Deliver(id)))
    ensures Client.ReceiveAll(Act(w, Deliver(id)).views[other], Pending(Act(w, Deliver(id)), other))
      == Client.ReceiveAll(w.views[other], Pending(w, other))
  {
    var w' := Act(w, Deliver(id));
    if other == id {
      var p := Pending(w, id);
      assert Pending(w', id) == p[1..];
      Client.ReceiveAllFirst(w.views[id], p);
    }
  }

  /** A page that opens will mirror the record once its `init_state` arrives. */
  lemma OpenMirrors(w: World)
    requires Tracked(w) && w.hub.state.curl.Str?
    ensures var w' := Opened(w); var id := w.hub.nextId;
      && Tracked(w') && id in w'.hub.sessions && id !in w.hub.outbox
      && Mirrors(Client.ReceiveAll(w'.views[id], Pending(w', id)), w'.hub.state)
      && forall other | other in w.hub.outbox :: Pending(w', other) == Pending(w, other) && w'.views[other] == w.views[other]
  {
    var id := w.hub.nextId;
    var w' := Opened(w);
    assert Pending(w', id) == [InitState(Server.Snapshot(w.hub.state))];
    assert Client.ReceiveAll(Client.Initial, [InitState(Server.Snapshot(w.hub.state))])
      == Client.OnInitState(Server.Snapshot(w.hub.state));
  }

  /**
   * A message arriving at a page changes nothing else, and leaves what every page will show
   * once all its messages have arrived.
   */
  lemma DeliverKeepsAll(w: World, id: SessionId)
    requires Tracked(w)
    ensures var w' := Act(w, Deliver(id));
      && Tracked(w') && w'.hub == w.hub && w'.unsent == w.unsent
      && (forall other | other in w.hub.outbox && other != id :: Pending(w', other) == Pending(w, other))
      && (id in w.hub.outbox && Pending(w, id) == [] ==> w' == w)
      && forall other | other in w.hub.outbox ::
           Client.ReceiveAll(w'.views[other], Pending(w', other)) == Client.ReceiveAll(w.views[other], Pending(w, other))
  {
    var w' := Act(w, Deliver(id));
    if w' != w {
      forall other | other in w.hub.outbox
        ensures Client.ReceiveAll(w'.views[other], Pending(w', other)) == Client.ReceiveAll(w.views[other], Pending(w, other))
      {
        DeliverKeeps(w, id, other);
      }
    }
  }

  /** A message arriving at a settled page leaves the world settled. */
  lemma DeliverSettled(w: World, id: SessionId)
    requires Settled(w)
    ensures Settled(Act(w, Deliver(id)))
  {
    DeliverKeepsAll(w, id);
  }

  /** A message arriving while page `s` is sending leaves page `s` sending. */
  lemma DeliverSending(w: World, s: SessionId, id: SessionId)
    requires Sending(w, s)
    ensures Sending(Act(w, Deliver(id)), s)
  {
    DeliverKeepsAll(w, id);
  }

  /** While a page is sending, something is in flight, so nobody may type. */
  lemma SendingIsNotQuiet(w: World, s: SessionId)
    requires Sending(w, s)
    ensures !Quiet(w)
  {
    assert w.unsent[s] != [];
  }

  /** A page that opens while page `s` is sending leaves page `s` sending. */
  lemma OpenWhileSending(w: World, s: SessionId)
    requires Sending(w, s)
    ensures Sending(Opened(w), s)
  {
    OpenMirrors(w);
    OpenKeepsOthers(w, s);
    var w' := Opened(w);
    var m := w.unsent[s][0];
    ReceiveReadsState(w.hub, w'.hub, s, m);
    assert w'.unsent[s] == w.unsent[s] && w'.views[s] == w.views[s];
  }

  /** A page that opens while page `s` is sending leaves every page but `s` as it was, and will itself mirror the record. */
  lemma OpenKeepsOthers(w: World, s: SessionId)
    requires Sending(w, s)
    ensures var w' := Opened(w);
      && Tracked(w')
      && forall id | id in w'.hub.sessions && id != s ::
           w'.unsent[id] == [] && Mirrors(Client.ReceiveAll(w'.views[id], Pending(w', id)), w'.hub.state)
  {
    OpenMirrors(w);
  }

  /** What a handler does to the record depends only on the record. */
  lemma ReceiveReadsState(h: Server.Hub, h': Server.Hub, sender: SessionId, m: Message)
    requires sender in h.sessions && sender in h'.sessions && h.state == h'.state
    ensures Server.Receive(h, sender, m).state == Server.Receive(h', sender, m).state
  {
  }

  /** A page that closes while page `s` is sending: `s` goes on sending, or its message is dropped. */
  lemma CloseWhileSending(w: World, s: SessionId, id: SessionId)
    requires Sending(w, s)
    ensures id == s ==> Settled(Act(w, Close(id)))
    ensures id != s ==> Sending(Act(w, Close(id)), s)
  {
  }

  /** From a settled world, a polite action keeps the pages in step. */
  lemma SettledStep(w: World, a: Action)
    requires Settled(w) && Polite(w, a)
    ensures InStep(Act(w, a))
  {
    match a
    case Open =>
      OpenMirrors(w);
    case TypeCurl(id, _) =>
      if id in w.hub.sessions { EditStartsSending(w, a); }
    case TypeMeta(id, _, _) =>
      if id in w.hub.sessions { EditStartsSending(w, a); }
    case Upload(id) =>
    case Deliver(id) =>
      DeliverSettled(w, id);
    case Close(id) =>
  }

  /** While page `s` is sending, a polite action keeps the pages in step. */
  lemma SendingStep(w: World, s: SessionId, a: Action)
    requires Sending(w, s) && Polite(w, a)
    ensures InStep(Act(w, a))
  {
    var w' := Act(w, a);
    SendingIsNotQuiet(w, s);
    match a
    case Open =>
      OpenWhileSending(w, s);
    case TypeCurl(id, _) =>
      assert false;
    case TypeMeta(id, _, _) =>
      assert false;
    case Upload(id) =>
      if id == s { UploadSettles(w, s); } else { assert w' == w; }
    case Deliver(id) =>
      DeliverSending(w, s, id);
    case Close(id) =>
      CloseWhileSending(w, s, id);
  }

  /** Every action of a disciplined run keeps the pages in step. */
  lemma ActKeepsInStep(w: World, a: Action)
    requires InStep(w) && Polite(w, a)
    ensures InStep(Act(w, a))
  {
    if Settled(w) {
      SettledStep(w, a);
    } else {
      var s :| Sending(w, s);
      SendingStep(w, s, a);
    }
  }

  /** In step and nothing in flight: every connected page shows the record itself. */
  lemma QuietMirrors(w: World)
    requires InStep(w) && Quiet(w)
    ensures forall id | id in w.hub.sessions :: Mirrors(w.views[id], w.hub.state)
  {
    forall s
      ensures !Sending(w, s)
    {
      if s in w.hub.sessions {
        assert w.unsent[s] == [];
      }
    }
    forall id | id in w.hub.sessions
      ensures Mirrors(w.views[id], w.hub.state)
    {
      assert Client.ReceiveAll(w.views[id], Pending(w, id)) == w.views[id];
    }
  }

  /**
   * Pages that type only while nothing is in flight stay in step: at every point of the run
   * each page will show the server's record once its messages have arrived, and whenever
   * nothing is in flight every connected page shows the record and can build its command.
   */
  lemma {:induction false} ClientsStayInStep(actions: seq<Action>)
    requires Disciplined(Begin, actions)
    ensures InStep(RunWorld(Begin, actions))
    ensures var w := RunWorld(Begin, actions);
      Quiet(w) ==> forall id | id in w.hub.sessions ::
        Mirrors(w.views[id], w.hub.state) && Client.Command(w.views[id]).Some?
  {
    var w := RunWorld(Begin, actions);
    if actions == [] {
      assert Settled(Begin);
    } else {
      ClientsStayInStep(actions[..|actions| - 1]);
      ActKeepsInStep(RunWorld(Begin, actions[..|actions| - 1]), actions[|actions| - 1]);
    }
    if Quiet(w) {
      QuietMirrors(w);
    }
  }

  /**
   * Page `a` types a title while nothing is in flight: once the server has handled it, page `b`
   * is sent both fields and page `a` nothing; once it arrives, `b` shows the new title beside
   * its episode; and a page that connects afterwards gets a snapshot holding the new title.
   */
  lemma TitleReachesOthers(w: World, a: SessionId, b: SessionId, t: string)
    requires InStep(w) && Quiet(w) && a in w.hub.sessions && b in w.hub.sessions && a != b
    ensures var w1 := Act(w, TypeMeta(a, "title", t));
      var w2 := Act(w1, Upload(a));
      var w3 := Act(w2, Deliver(b));
      && a in w2.hub.outbox && b in w2.hub.outbox && b in w3.views
      && w2.hub.outbox[b] == w.hub.outbox[b] + [MetaUpdate(map["title" := Str(t), "episode" := Str(w.hub.state.episode)])]
      && w2.hub.outbox[a] == w.hub.outbox[a]
      && w3.views[b].title == Str(t) && w3.views[b].episode == w.views[b].episode
      && var (h, c) := Server.HandleConnect(w2.hub);
         h.outbox[c] == [InitState(Server.Snapshot(w.hub.state.(title := t)))]
  {
    QuietMirrors(w);
    var w1 := Act(w, TypeMeta(a, "title", t));
    var w2 := Act(w1, Upload(a));
    var m := MetaUpdate(map["title" := Str(t), "episode" := Str(w.hub.state.episode)]);
    assert w1.unsent[a] == [m];
    assert w2.hub == Server.HandleMeta(w.hub, a, m.meta);
    assert w2.seen[b] == |w.hub.outbox[b]|;
  }

  /** Two pages, each with nothing in flight, edit a name: each page's payload waits in its queue. */
  lemma EditsQueued(w: World, w1: World, w2: World, a: SessionId, b: SessionId, ka: string, va: string, kb: string, vb: string)
    requires Quiet(w) && w.hub.sessions == {a, b} && a != b
    requires w1 == Act(w, TypeMeta(a, ka, va)) && w2 == Act(w1, TypeMeta(b, kb, vb))
    ensures var ea, eb := Client.UpdateMeta(w.views[a], ka, va), Client.UpdateMeta(w.views[b], kb, vb);
      && Tracked(w2) && w2.hub == w.hub && w2.seen == w.seen
      && w2.seen[a] == |w2.hub.outbox[a]| && w2.seen[b] == |w2.hub.outbox[b]|
      && w2.views[a] == ea.fields && w2.views[b] == eb.fields
      && w2.unsent[a] == [ea.sent] && w2.unsent[b] == [eb.sent]
  {
    assert Pending(w, a) == [] && Pending(w, b) == [];
  }

  /** Handling `a`'s payload and then `b`'s sends each page the other's payload. */
  lemma CrossedRelays(h: Server.Hub, a: SessionId, b: SessionId, pa: Payload, pb: Payload)
    requires Server.Valid(h) && h.sessions == {a, b} && a != b
    ensures var h' := Server.HandleMeta(Server.HandleMeta(h, a, pa), b, pb);
      && Server.Valid(h') && h'.sessions == h.sessions && h'.outbox.Keys == h.outbox.Keys
      && h'.outbox[a] == h.outbox[a] + [MetaUpdate(pb)]
      && h'.outbox[b] == h.outbox[b] + [MetaUpdate(pa)]
  {
  }

  /** The server handles a page's one queued name payload. */
  lemma UploadMeta(w: World, w': World, id: SessionId, p: Payload)
    requires Tracked(w) && id in w.hub.sessions && w.unsent[id] == [MetaUpdate(p)]
    requires w' == Act(w, Upload(id))
    ensures w' == w.(hub := Server.HandleMeta(w.hub, id, p), unsent := w.unsent[id := []])
    ensures Tracked(w') && w'.hub.sessions == w.hub.sessions
  {
  }

  /** The server handles `a`'s one queued payload, then `b`'s: each page is sent the other's payload. */
  lemma UploadsRelayed(w2: World, w3: World, w4: World, a: SessionId, b: SessionId, pa: Payload, pb: Payload)
    requires Tracked(w2) && w2.hub.sessions == {a, b} && a != b
    requires w2.unsent[a] == [MetaUpdate(pa)] && w2.unsent[b] == [MetaUpdate(pb)]
    requires w3 == Act(w2, Upload(a)) && w4 == Act(w3, Upload(b))
    ensures Tracked(w4) && w4.hub.sessions == {a, b}
    ensures w4.hub.state == Server.ApplyMeta(Server.ApplyMeta(w2.hub.state, pa), pb)
    ensures w4.hub.outbox[a] == w2.hub.outbox[a] + [MetaUpdate(pb)]
    ensures w4.hub.outbox[b] == w2.hub.outbox[b] + [MetaUpdate(pa)]
    ensures w4.views == w2.views && w4.seen == w2.seen
    ensures w4.unsent[a] == [] && w4.unsent[b] == []
  {
    UploadMeta(w2, w3, a, pa);
    assert w3.unsent[b] == [MetaUpdate(pb)];
    UploadMeta(w3, w4, b, pb);
    CrossedRelays(w2.hub, a, b, pa, pb);
    assert w4.hub == Server.HandleMeta(Server.HandleMeta(w2.hub, a, pa), b, pb);
  }

  /** The one message on the way to `a` arrives, then the one on the way to `b`: nothing is left in flight. */
  lemma ArrivalsQuiet(w4: World, w5: World, w6: World, a: SessionId, b: SessionId)
    requires Tracked(w4) && w4.hub.sessions == {a, b} && a != b
    requires w4.seen[a] + 1 == |w4.hub.outbox[a]| && w4.seen[b] + 1 == |w4.hub.outbox[b]|
    requires w4.unsent[a] == [] && w4.unsent[b] == []
    requires w5 == Act(w4, Deliver(a)) && w6 == Act(w5, Deliver(b))
    ensures Quiet(w6) && w6.hub == w4.hub && a in w6.views && b in w6.views
    ensures w6.views[a] == Client.Receive(w4.views[a], w4.hub.outbox[a][w4.seen[a]])
    ensures w6.views[b] == Client.Receive(w4.views[b], w4.hub.outbox[b][w4.seen[b]])
  {
    assert Pending(w6, a) == [] && Pending(w6, b) == [];
  }

  /** The run in which `a` and `b` each edit a name before the other's relay arrives. */
  ghost predicate Crossing(w: World, w1: World, w2: World, w3: World, w4: World, w5: World, w6: World,
                           a: SessionId, b: SessionId, ka: string, va: string, kb: string, vb: string) {
    && w1 == Act(w, TypeMeta(a, ka, va)) && w2 == Act(w1, TypeMeta(b, kb, vb))
    && w3 == Act(w2, Upload(a)) && w4 == Act(w3, Upload(b))
    && w5 == Act(w4, Deliver(a)) && w6 == Act(w5, Deliver(b))
  }

  /**
   * Two pages each edit a name before the other's relay arrives, the server handles `a`'s
   * message first, then everything arrives. The server applies both payloads in that order;
   * each page applies only the other's payload, on top of its own edit.
   */
  lemma CrossingEdits(w: World, w1: World, w2: World, w3: World, w4: World, w5: World, w6: World,
                      a: SessionId, b: SessionId, ka: string, va: string, kb: string, vb: string)
    requires Quiet(w) && w.hub.sessions == {a, b} && a != b
    requires Crossing(w, w1, w2, w3, w4, w5, w6, a, b, ka, va, kb, vb)
    ensures var ea, eb := Client.UpdateMeta(w.views[a], ka, va), Client.UpdateMeta(w.views[b], kb, vb);
      && Quiet(w6)
      && w6.hub.state == Server.ApplyMeta(Server.ApplyMeta(w.hub.state, ea.sent.meta), eb.sent.meta)
      && a in w6.views && b in w6.views
      && w6.views[a] == Client.Receive(ea.fields, eb.sent)
      && w6.views[b] == Client.Receive(eb.fields, ea.sent)
  {
    var ea, eb := Client.UpdateMeta(w.views[a], ka, va), Client.UpdateMeta(w.views[b], kb, vb);
    EditsQueued(w, w1, w2, a, b, ka, va, kb, vb);
    UploadsRelayed(w2, w3, w4, a, b, ea.sent.meta, eb.sent.meta);
    ArrivalsQuiet(w4, w5, w6, a, b);
  }

  /**
   * Two pages type a title at once, each before the other's relay arrives. Once everything has
   * arrived and nothing is in flight, the server and page `a` hold `b`'s title while page `b`
   * holds `a`'s: the broadcast skips each sender, so nothing will bring `b` back in step.
   */
  lemma RacingTitlesDiverge(w: World, w1: World, w2: World, w3: World, w4: World, w5: World, w6: World,
                            a: SessionId, b: SessionId, x: string, y: string)
    requires InStep(w) && Quiet(w) && w.hub.sessions == {a, b} && a != b && x != y
    requires Crossing(w, w1, w2, w3, w4, w5, w6, a, b, "title", x, "title", y)
    ensures Quiet(w6) && a in w6.views && b in w6.views
    ensures w6.hub.state.title == y && w6.views[a].title == Str(y)
    ensures w6.views[b].title == Str(x) != Str(w6.hub.state.title)
  {
    QuietMirrors(w);
    CrossingEdits(w, w1, w2, w3, w4, w5, w6, a, b, "title", x, "title", y);
    var ea, eb := Client.UpdateMeta(w.views[a], "title", x), Client.UpdateMeta(w.views[b], "title", y);
    assert Get(ea.sent.meta, "title") == Str(x) && Get(eb.sent.meta, "title") == Str(y);
  }

  /**
   * Page `a` types a title while page `b`, which has not seen it yet, types an episode. Each
   * payload carries the sender's other field as it last saw it, so once everything has arrived
   * the server and page `a` hold the old title with `b`'s episode (`a`'s edit is lost), while
   * page `b` holds `a`'s title with the old episode (its own edit is lost on its own page).
   */
  lemma StaleEpisodeLosesTitle(w: World, w1: World, w2: World, w3: World, w4: World, w5: World, w6: World,
                               a: SessionId, b: SessionId, x: string, e: string)
    requires InStep(w) && Quiet(w) && w.hub.sessions == {a, b} && a != b && x != w.hub.state.title
    requires Crossing(w, w1, w2, w3, w4, w5, w6, a, b, "title", x, "episode", e)
    ensures Quiet(w6) && a in w6.views && b in w6.views
    ensures w6.hub.state.title == w.hub.state.title != x && w6.hub.state.episode == e
    ensures Mirrors(w6.views[a], w6.hub.state)
    ensures w6.views[b].title == Str(x) && w6.views[b].episode == Str(w.hub.state.episode)
  {
    QuietMirrors(w);
    CrossingEdits(w, w1, w2, w3, w4, w5, w6, a, b, "title", x, "episode", e);
    var ea, eb := Client.UpdateMeta(w.views[a], "title", x), Client.UpdateMeta(w.views[b], "episode", e);
    assert Mirrors(w.views[a], w.hub.state) && Mirrors(w.views[b], w.hub.state);
    assert Get(ea.sent.meta, "title") == Str(x) && Get(ea.sent.meta, "episode") == Str(w.hub.state.episode);
    assert Get(eb.sent.meta, "title") == Str(w.hub.state.title) && Get(eb.sent.meta, "episode") == Str(e);
  }

  /**
   * The two sides check a meta field differently: the server takes only strings, a page
   * anything but `undefined`. A `title: null` sent by some other program leaves the record's
   * title, but sets the receiving page's title to `null`, and its command can no longer be built.
   */
  lemma NullTitleSplitsViews(w: World, sender: SessionId, other: SessionId)
    requires InStep(w) && Quiet(w) && sender in w.hub.sessions && other in w.hub.sessions && other != sender
    ensures var data := map["title" := Null];
      var h := Server.HandleMeta(w.hub, sender, data);
      var f := Client.Receive(w.views[other], MetaUpdate(data));
      && h.state == w.hub.state
      && f.title == Null
      && Client.Command(f).None?
  {
  }
}
