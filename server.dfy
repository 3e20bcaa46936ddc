/**
 * The server's single shared record and its socket handlers. Every handler runs to
 * completion before the next begins, so the server is a sequential state machine over the
 * record, the set of connected sockets and what has been sent to each of them.
 * `Hub` is that machine as a value; `Store` is the same machine as a mutable object whose
 * methods update it in place, each proved to make the step `Hub` describes.
 */
module Server {
  import opened Wire

  type SessionId = nat

  /** `currentState`. The handlers store any received `curl`; only strings reach `title` and `episode`. */
  datatype Shared = Shared(curl: Value, title: string, episode: string)

  /** `{ curl: '', title: '', episode: '' }`. */
  const Empty: Shared := Shared(Str(""), "", "")

  /** The payload of `init_state`: the current record. */
  function Snapshot(s: Shared): (data: Payload)
    ensures data.Keys == {"curl", "title", "episode"}
    ensures data["curl"] == s.curl && data["title"] == Str(s.title) && data["episode"] == Str(s.episode)
  {
    map["curl" := s.curl, "title" := Str(s.title), "episode" := Str(s.episode)]
  }

  /** The `curl_update` handler's assignment: unconditional. */
  function ApplyCurl(s: Shared, data: Value): (r: Shared)
    ensures r.curl == data && r.title == s.title && r.episode == s.episode
  {
    s.(curl := data)
  }

  /** The `meta_update` handler's assignments: a field changes only when the payload's value is a string. */
  function ApplyMeta(s: Shared, data: Payload): (r: Shared)
    ensures r.title == (if Get(data, "title").Str? then data["title"].s else s.title)
    ensures r.episode == (if Get(data, "episode").Str? then data["episode"].s else s.episode)
    ensures r.curl == s.curl
  {
    var title := Get(data, "title");
    var episode := Get(data, "episode");
    s.(title := if title.Str? then title.s else s.title,
       episode := if episode.Str? then episode.s else s.episode)
  }

  /**
   * The whole server: the record, the connected sockets, everything sent to each socket that
   * ever connected (in order), and the next socket id.
   */
  datatype Hub = Hub(state: Shared, sessions: set<SessionId>, outbox: map<SessionId, seq<Message>>, nextId: SessionId)

  const Start: Hub := Hub(Empty, {}, map[], 0)

  /** Connected sockets have an outbox; every id handed out so far is below `nextId`. */
  ghost predicate Valid(h: Hub) {
    && h.sessions <= h.outbox.Keys
    && forall id | id in h.outbox :: id < h.nextId
  }

  /** `socket.broadcast.emit(m)`: `m` is appended for every connected socket but the sender. */
  function BroadcastExcept(outbox: map<SessionId, seq<Message>>, sessions: set<SessionId>, sender: SessionId, m: Message)
    : (r: map<SessionId, seq<Message>>)
    ensures r.Keys == outbox.Keys
    ensures forall id | id in outbox && id in sessions && id != sender :: r[id] == outbox[id] + [m]
    ensures sender in outbox ==> r[sender] == outbox[sender]
    ensures forall id | id in outbox && id !in sessions :: r[id] == outbox[id]
  {
    map id | id in outbox :: if id in sessions && id != sender then outbox[id] + [m] else outbox[id]
  }

  /** `connection`: a new socket, to which `init_state` carries the current record. */
  function HandleConnect(h: Hub): (r: (Hub, SessionId))
    ensures r.1 == h.nextId && r.0.nextId == h.nextId + 1
    ensures r.0.state == h.state && r.0.sessions == h.sessions + {r.1}
    ensures r.0.outbox == h.outbox[r.1 := [InitState(Snapshot(h.state))]]
  {
    var id := h.nextId;
    (h.(sessions := h.sessions + {id}, outbox := h.outbox[id := [InitState(Snapshot(h.state))]], nextId := id + 1), id)
  }

  /** `curl_update` from `sender`. */
  function HandleCurl(h: Hub, sender: SessionId, data: Value): (r: Hub)
    requires sender in h.sessions
    ensures r.state == h.state.(curl := data)
    ensures r.sessions == h.sessions && r.nextId == h.nextId
    ensures r.outbox == BroadcastExcept(h.outbox, h.sessions, sender, Message.CurlUpdate(data))
  {
    h.(state := ApplyCurl(h.state, data), outbox := BroadcastExcept(h.outbox, h.sessions, sender, Message.CurlUpdate(data)))
  }

  /** `meta_update` from `sender`: the raw payload is relayed, not the merged record. */
  function HandleMeta(h: Hub, sender: SessionId, data: Payload): (r: Hub)
    requires sender in h.sessions
    ensures r.state.curl == h.state.curl
    ensures r.state.title == (if Get(data, "title").Str? then data["title"].s else h.state.title)
    ensures r.state.episode == (if Get(data, "episode").Str? then data["episode"].s else h.state.episode)
    ensures r.sessions == h.sessions && r.nextId == h.nextId
    ensures r.outbox == BroadcastExcept(h.outbox, h.sessions, sender, Message.MetaUpdate(data))
  {
    h.(state := ApplyMeta(h.state, data), outbox := BroadcastExcept(h.outbox, h.sessions, sender, Message.MetaUpdate(data)))
  }

  /** `disconnect`: the socket leaves the set of connected sockets. */
  function HandleDisconnect(h: Hub, id: SessionId): (r: Hub)
    requires id in h.sessions
    ensures r.sessions == h.sessions - {id} && id !in r.sessions
    ensures r.state == h.state && r.outbox == h.outbox && r.nextId == h.nextId
  {
    h.(sessions := h.sessions - {id})
  }

  /** A message a client emits, handled by the handler its name selects; there is no `init_state` handler. */
  function Receive(h: Hub, sender: SessionId, m: Message): Hub
    requires sender in h.sessions
  {
    match m
    case InitState(_) => h
    case CurlUpdate(curl) => HandleCurl(h, sender, curl)
    case MetaUpdate(meta) => HandleMeta(h, sender, meta)
  }

  /** The first record is three empty strings. */
  lemma StartIsEmpty()
    ensures Start.state.curl == Str("") && Start.state.title == "" && Start.state.episode == ""
    ensures Valid(Start)
  {
  }

  /**
   * A new socket receives exactly one `init_state`, equal to the current record; no other
   * socket's outbox and nothing in the record changes.
   */
  lemma ConnectSendsSnapshot(h: Hub)
    requires Valid(h)
    ensures var (h', id) := HandleConnect(h);
      && id !in h.outbox && id in h'.sessions && Valid(h')
      && h'.outbox[id] == [InitState(Snapshot(h.state))]
      && (forall other | other in h.outbox :: other in h'.outbox && h'.outbox[other] == h.outbox[other])
      && h'.outbox.Keys == h.outbox.Keys + {id}
      && h'.state == h.state
  {
  }

  /** `curl_update` sets `curl` to the payload, whatever it is, and leaves title and episode alone. */
  lemma CurlOverwrites(s: Shared, data: Value)
    ensures ApplyCurl(s, data).curl == data
    ensures ApplyCurl(s, data).title == s.title && ApplyCurl(s, data).episode == s.episode
  {
  }

  /** A run of `curl_update`s: the record after applying them in order. */
  function ApplyCurls(s: Shared, updates: seq<Value>): Shared {
    if updates == [] then s else ApplyCurl(ApplyCurls(s, updates[..|updates| - 1]), updates[|updates| - 1])
  }

  /** After a run of `curl_update`s the last one wins; title and episode are untouched. */
  lemma {:induction false} LastCurlWins(s: Shared, updates: seq<Value>)
    ensures ApplyCurls(s, updates).title == s.title && ApplyCurls(s, updates).episode == s.episode
    ensures updates != [] ==> ApplyCurls(s, updates).curl == updates[|updates| - 1]
    ensures updates == [] ==> ApplyCurls(s, updates).curl == s.curl
  {
    if updates != [] {
      LastCurlWins(s, updates[..|updates| - 1]);
    }
  }

  /**
   * `meta_update` takes a field exactly when the payload holds a string for it: a title-only
   * payload leaves the episode, and a non-string value is ignored. The curl text is untouched.
   */
  lemma MetaMerge(s: Shared, data: Payload)
    ensures Get(data, "title").Str? ==> ApplyMeta(s, data).title == Get(data, "title").s
    ensures !Get(data, "title").Str? ==> ApplyMeta(s, data).title == s.title
    ensures Get(data, "episode").Str? ==> ApplyMeta(s, data).episode == Get(data, "episode").s
    ensures !Get(data, "episode").Str? ==> ApplyMeta(s, data).episode == s.episode
    ensures ApplyMeta(s, data).curl == s.curl
  {
  }

  /** A title-only payload leaves the episode on the record, whatever the title's value. */
  lemma TitleOnlyKeepsEpisode(s: Shared, v: Value)
    ensures ApplyMeta(s, map["title" := v]).episode == s.episode
    ensures ApplyMeta(s, map["title" := v]).title == if v.Str? then v.s else s.title
  {
  }

  /** Applying the same update twice leaves the record as applying it once. */
  lemma UpdatesIdempotent(s: Shared, curl: Value, meta: Payload)
    ensures ApplyCurl(ApplyCurl(s, curl), curl) == ApplyCurl(s, curl)
    ensures ApplyMeta(ApplyMeta(s, meta), meta) == ApplyMeta(s, meta)
  {
  }

  /**
   * Broadcast-except-self: the message is appended for every other connected socket, the
   * sender's outbox and every disconnected socket's stay as they were.
   */
  lemma BroadcastSkipsSender(outbox: map<SessionId, seq<Message>>, sessions: set<SessionId>, sender: SessionId, m: Message)
    requires sessions <= outbox.Keys
    ensures var r := BroadcastExcept(outbox, sessions, sender, m);
      && (sender in outbox ==> r[sender] == outbox[sender])
      && (forall id | id in sessions && id != sender :: r[id] == outbox[id] + [m])
      && (forall id | id in outbox && id !in sessions :: r[id] == outbox[id])
  {
  }

  /** The record a `meta_update` leaves and the message it relays: the raw payload, non-strings included. */
  lemma MetaRelaysRawPayload(h: Hub, sender: SessionId, data: Payload, other: SessionId)
    requires Valid(h) && sender in h.sessions && other in h.sessions && other != sender
    ensures var h' := HandleMeta(h, sender, data);
      h'.outbox[other] == h.outbox[other] + [Message.MetaUpdate(data)] && h'.outbox[sender] == h.outbox[sender]
  {
  }

  /** A number as title is relayed to the others, but the record keeps its title. */
  lemma NonStringTitleRelayedNotStored(h: Hub, sender: SessionId, other: SessionId)
    requires Valid(h) && sender in h.sessions && other in h.sessions && other != sender
    ensures var h' := HandleMeta(h, sender, map["title" := Num(1)]);
      h'.state == h.state && h'.outbox[other][|h'.outbox[other]| - 1] == Message.MetaUpdate(map["title" := Num(1)])
  {
  }

  /** Everything that can happen to the server, one handler run at a time. */
  datatype Event =
    | Connected
    | CurlFrom(sender: SessionId, curl: Value)
    | MetaFrom(sender: SessionId, meta: Payload)
    | Disconnected(id: SessionId)

  /** The handlers of a socket run only while it is connected. */
  predicate Enabled(h: Hub, e: Event) {
    match e
    case Connected => true
    case CurlFrom(sender, _) => sender in h.sessions
    case MetaFrom(sender, _) => sender in h.sessions
    case Disconnected(id) => id in h.sessions
  }

  /** One handler run; an event for a socket that is not connected does not happen. */
  function Step(h: Hub, e: Event): Hub {
    if !Enabled(h, e) then h
    else match e
      case Connected => HandleConnect(h).0
      case CurlFrom(sender, curl) => HandleCurl(h, sender, curl)
      case MetaFrom(sender, meta) => HandleMeta(h, sender, meta)
      case Disconnected(id) => HandleDisconnect(h, id)
  }

  /** The handlers run one after another. */
  function Run(h: Hub, events: seq<Event>): Hub {
    if events == [] then h else Step(Run(h, events[..|events| - 1]), events[|events| - 1])
  }

  /** Each outbox starts with its one `init_state`; everything after it is an update. */
  ghost predicate OneSnapshotEach(h: Hub) {
    forall id | id in h.outbox ::
      && h.outbox[id] != []
      && h.outbox[id][0].InitState?
      && forall k | 0 < k < |h.outbox[id]| :: !h.outbox[id][k].InitState?
  }

  lemma StepPreserves(h: Hub, e: Event)
    requires Valid(h) && OneSnapshotEach(h)
    ensures Valid(Step(h, e)) && OneSnapshotEach(Step(h, e))
  {
    var h' := Step(h, e);
    if Enabled(h, e) && (e.CurlFrom? || e.MetaFrom?) {
      forall id | id in h'.outbox
        ensures h'.outbox[id] != [] && h'.outbox[id][0].InitState?
        ensures forall k | 0 < k < |h'.outbox[id]| :: !h'.outbox[id][k].InitState?
      {
        assert h'.outbox[id][..|h.outbox[id]|] == h.outbox[id];
      }
    }
  }

  /**
   * Over any run from the start, every socket that ever connected received exactly one
   * `init_state`, as its first message.
   */
  lemma {:induction false} RunKeepsOneSnapshotEach(h: Hub, events: seq<Event>)
    requires Valid(h) && OneSnapshotEach(h)
    ensures Valid(Run(h, events)) && OneSnapshotEach(Run(h, events))
  {
    if events != [] {
      RunKeepsOneSnapshotEach(h, events[..|events| - 1]);
      StepPreserves(Run(h, events[..|events| - 1]), events[|events| - 1]);
    }
  }

  /** Connections and disconnections never change the record. */
  lemma {:induction false} MembershipKeepsState(h: Hub, events: seq<Event>)
    requires forall k | 0 <= k < |events| :: events[k].Connected? || events[k].Disconnected?
    ensures Run(h, events).state == h.state
  {
    if events != [] {
      MembershipKeepsState(h, events[..|events| - 1]);
    }
  }

  /**
   * A socket that connects after others have left still gets every update applied before:
   * its `init_state` carries the record as the updates left it.
   */
  lemma SnapshotAfterDisconnect(h: Hub, leaver: SessionId)
    requires Valid(h) && leaver in h.sessions
    ensures var (h', id) := HandleConnect(HandleDisconnect(h, leaver));
      h'.outbox[id] == [InitState(Snapshot(h.state))] && leaver !in h'.sessions
  {
  }

  /** The server as the process runs it: one `currentState` mutated field by field. */
  class Store {
    var curl: Value
    var title: string
    var episode: string
    var sessions: set<SessionId>
    var outbox: map<SessionId, seq<Message>>
    var nextId: SessionId

    ghost function Model(): Hub
      reads this
    {
      Hub(Shared(curl, title, episode), sessions, outbox, nextId)
    }

    ghost predicate Invariant()
      reads this
    {
      Valid(Model())
    }

    constructor ()
      ensures Model() == Start && Invariant()
    {
      curl, title, episode := Str(""), "", "";
      sessions, outbox, nextId := {}, map[], 0;
    }

    /** The fan-out: every connected socket other than `sender` gets `m` appended. */
    method Broadcast(sender: SessionId, m: Message)
      requires sessions <= outbox.Keys
      modifies this`outbox
      ensures outbox == BroadcastExcept(old(outbox), sessions, sender, m)
    {
      var pending := sessions;
      while pending != {}
        invariant pending <= sessions
        invariant outbox.Keys == old(outbox).Keys
        invariant forall id | id in outbox ::
          outbox[id] == if id in sessions - pending && id != sender then old(outbox)[id] + [m] else old(outbox)[id]
        decreases pending
      {
        var id :| id in pending;
        if id != sender {
          outbox := outbox[id := outbox[id] + [m]];
        }
        pending := pending - {id};
      }
    }

    method OnConnection() returns (id: SessionId)
      requires Invariant()
      modifies this
      ensures Invariant()
      ensures (Model(), id) == HandleConnect(old(Model()))
    {
      id := nextId;
      nextId := nextId + 1;
      sessions := sessions + {id};
      outbox := outbox[id := [InitState(Snapshot(Shared(curl, title, episode)))]];
    }

    method OnCurlUpdate(sender: SessionId, data: Value)
      requires Invariant() && sender in sessions
      modifies this
      ensures Invariant()
      ensures Model() == HandleCurl(old(Model()), sender, data)
    {
      curl := data;
      Broadcast(sender, Message.CurlUpdate(data));
    }

    method OnMetaUpdate(sender: SessionId, data: Payload)
      requires Invariant() && sender in sessions
      modifies this
      ensures Invariant()
      ensures Model() == HandleMeta(old(Model()), sender, data)
    {
      var t := Get(data, "title");
      if t.Str? { title := t.s; }
      var e := Get(data, "episode");
      if e.Str? { episode := e.s; }
      Broadcast(sender, Message.MetaUpdate(data));
    }

    method OnDisconnect(id: SessionId)
      requires Invariant() && id in sessions
      modifies this
      ensures Invariant()
      ensures Model() == HandleDisconnect(old(Model()), id)
    {
      sessions := sessions - {id};
    }
  }
}
