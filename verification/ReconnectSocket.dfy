/** The reconnecting socket of the web client (v10/web/src/realtime/useDanmakuSocket.ts). Its callbacks run
    one at a time, so a run is a sequence of events, in any order the browser and React deliver them.
    `DanmakuSocket` has the hook's callbacks; each does what `Next` says. */
module ReconnectSocket {
  import opened Wrappers

  const MESSAGE_LIMIT := 300
  const INITIAL_RETRY_DELAY := 500
  const MAX_RETRY_DELAY := 10000

  datatype Identity = Identity(roomId: string, userId: string, username: string)
  datatype Status = Connecting | Connected | Reconnecting | Offline
  datatype Packet = Danmaku(roomId: string, text: string) | Other(roomId: string)

  // The browser's side: every socket made so far, and every timeout that is set.
  datatype Socket = Socket(generation: nat, identity: Identity, live: bool)
  datatype Timer = Timer(generation: nat, delay: nat)

  // `accepted` is the history of what was shown for the present identity: from which socket, what.
  datatype Arrival = Arrival(socket: nat, packet: Packet)

  datatype State = State(
    mounted: bool, identity: Identity, status: Status, messages: seq<Packet>,
    socketRef: Option<nat>, reconnectTimerRef: Option<nat>, attempt: nat, generation: nat,
    sockets: seq<Socket>, timers: map<nat, Timer>, nextHandle: nat, accepted: seq<Arrival>)

  const NOBODY := Identity("", "", "")
  const START := State(false, NOBODY, Connecting, [], None, None, 0, 0, [], map[], 0, [])

  /** `opens` says whether the WebSocket constructor succeeds. Events of any socket ever made may come at any
      time; a timeout fires only while it is set. */
  datatype Event =
    | Mount(identity: Identity, opens: bool)
    | Rerender(identity: Identity, opens: bool)
    | Unmount
    | Opened(socket: nat)
    | Received(socket: nat, packet: Option<Packet>)
    | Closed(socket: nat)
    | TimerFires(handle: nat, opens: bool)
    | Reconnect(opens: bool)

  function Pow2(n: nat): nat { if n == 0 then 1 else 2 * Pow2(n - 1) }

  function Min(a: nat, b: nat): nat { if a <= b then a else b }

  function Delay(attempt: nat): nat { Min(INITIAL_RETRY_DELAY * Pow2(attempt), MAX_RETRY_DELAY) }

  // Array.prototype.slice(-n) for n > 0.
  function LastOf<T>(items: seq<T>, n: nat): seq<T> {
    if |items| <= n then items else items[|items| - n..]
  }

  function ClearReconnectTimer(s: State): State {
    if s.reconnectTimerRef.None? then s
    else s.(timers := s.timers - {s.reconnectTimerRef.value}, reconnectTimerRef := None)
  }

  function ScheduleReconnect(s: State, generation: nat): State {
    if generation != s.generation || s.reconnectTimerRef.Some? then s
    else s.(attempt := s.attempt + 1, status := Reconnecting, reconnectTimerRef := Some(s.nextHandle),
            timers := s.timers[s.nextHandle := Timer(generation, Delay(s.attempt))], nextHandle := s.nextHandle + 1)
  }

  function Connect(s: State, status: Status, opens: bool): State {
    var t := ClearReconnectTimer(s).(generation := s.generation + 1, status := status);
    if !opens then ScheduleReconnect(t, t.generation)
    else t.(sockets := t.sockets + [Socket(t.generation, t.identity, true)], socketRef := Some(|t.sockets|))
  }

  function Hangup(sockets: seq<Socket>, socket: nat): seq<Socket> {
    if socket < |sockets| then sockets[socket := sockets[socket].(live := false)] else sockets
  }

  // What cleanup and reconnect begin with.
  function Drop(s: State): State {
    var t := ClearReconnectTimer(s).(attempt := 0, generation := s.generation + 1, socketRef := None);
    if s.socketRef.None? then t else t.(sockets := Hangup(t.sockets, s.socketRef.value))
  }

  function Effect(s: State, identity: Identity, opens: bool): State {
    Connect(s.(mounted := true, identity := identity, messages := [], accepted := []), Connecting, opens)
  }

  // The guard of the three socket callbacks.
  predicate Current(s: State, socket: nat) {
    socket < |s.sockets| && s.sockets[socket].generation == s.generation && s.socketRef == Some(socket)
  }

  predicate Accepts(s: State, socket: nat, packet: Option<Packet>) {
    Current(s, socket) && packet.Some? && packet.value.roomId == s.identity.roomId && packet.value.Danmaku?
  }

  function Next(s: State, event: Event): State {
    match event
    case Mount(identity, opens) => if s.mounted then s else Effect(s, identity, opens)
    case Rerender(identity, opens) =>
      if !s.mounted || identity == s.identity then s else Effect(Drop(s), identity, opens)
    case Unmount => if s.mounted then Drop(s).(mounted := false) else s
    case Opened(socket) => if Current(s, socket) then s.(attempt := 0, status := Connected) else s
    case Received(socket, packet) =>
      if Accepts(s, socket, packet) then
        s.(messages := LastOf(s.messages, MESSAGE_LIMIT - 1) + [packet.value],
           accepted := s.accepted + [Arrival(socket, packet.value)])
      else s
    case Closed(socket) =>
      var t := s.(sockets := Hangup(s.sockets, socket));
      if Current(s, socket) then ScheduleReconnect(t.(socketRef := None), s.sockets[socket].generation) else t
    case TimerFires(handle, opens) =>
      if handle !in s.timers then s
      else
        var t := s.(timers := s.timers - {handle}, reconnectTimerRef := None);
        if s.timers[handle].generation == s.generation then Connect(t, Reconnecting, opens) else t
    case Reconnect(opens) => Connect(Drop(s), Connecting, opens)
  }

  function Run(events: seq<Event>): State {
    if events == [] then START else Next(Run(events[..|events| - 1]), events[|events| - 1])
  }

  // -------- what holds --------

  predicate ExactlyOne(a: bool, b: bool) { a != b }

  /** While mounted, either there is a current socket or a reconnect is on its way, and never both; otherwise
      neither. The only timeout set is the one the hook knows, and it is for the present generation. The only
      live socket is the current one, which is live, and was opened by the present generation for the present
      identity. */
  predicate Wired(s: State) {
    && (s.mounted ==> ExactlyOne(s.socketRef.Some?, s.reconnectTimerRef.Some?))
    && (!s.mounted ==> s.socketRef.None? && s.reconnectTimerRef.None?)
    && s.timers.Keys == (if s.reconnectTimerRef.Some? then {s.reconnectTimerRef.value} else {})
    && (s.reconnectTimerRef.Some? ==>
          s.attempt > 0 && s.timers[s.reconnectTimerRef.value] == Timer(s.generation, Delay(s.attempt - 1)))
    && (s.socketRef.Some? ==>
          && s.socketRef.value < |s.sockets|
          && s.sockets[s.socketRef.value].live
          && s.sockets[s.socketRef.value].generation == s.generation
          && s.sockets[s.socketRef.value].identity == s.identity)
    && (forall i :: 0 <= i < |s.sockets| && s.sockets[i].live ==> s.socketRef == Some(i))
  }

  function Packets(arrivals: seq<Arrival>): (packets: seq<Packet>)
    ensures |packets| == |arrivals|
  {
    if arrivals == [] then []
    else Packets(arrivals[..|arrivals| - 1]) + [arrivals[|arrivals| - 1].packet]
  }

  // The list shows the last of what was accepted, all of it from sockets of this identity and for this room.
  predicate Shows(s: State) {
    s.messages == LastOf(Packets(s.accepted), 300) && AllBelong(s.accepted, s.sockets, s.identity)
  }

  predicate AllBelong(arrivals: seq<Arrival>, sockets: seq<Socket>, identity: Identity) {
    forall i :: 0 <= i < |arrivals| ==> Belongs(arrivals[i], sockets, identity)
  }

  predicate Belongs(arrival: Arrival, sockets: seq<Socket>, identity: Identity) {
    && arrival.socket < |sockets| && sockets[arrival.socket].identity == identity
    && arrival.packet.roomId == identity.roomId
  }

  // `reconnect` called when the hook is not mounted: it has no guard.
  predicate Stray(s: State, event: Event) { event.Reconnect? && !s.mounted }

  // Between cleanup and effect: nothing is open and nothing is set.
  predicate Bare(s: State) {
    && s.socketRef.None? && s.reconnectTimerRef.None? && s.timers == map[]
    && (forall i :: 0 <= i < |s.sockets| ==> !s.sockets[i].live)
  }

  lemma DropIsBare(s: State)
    requires Wired(s)
    ensures Bare(Drop(s))
  {
  }

  lemma ConnectIsWired(s: State, status: Status, opens: bool)
    requires Bare(s)
    ensures Wired(Connect(s, status, opens)) <==> s.mounted
  {
  }

  lemma NextIsWiredIff(s: State, event: Event)
    requires Wired(s)
    ensures Wired(Next(s, event)) <==> !Stray(s, event)
  {
    DropIsBare(s);
    match event
    case Mount(identity, opens) =>
      if !s.mounted {
        ConnectIsWired(s.(mounted := true, identity := identity, messages := [], accepted := []), Connecting, opens);
      }
    case Rerender(identity, opens) =>
      if s.mounted {
        ConnectIsWired(Drop(s).(mounted := true, identity := identity, messages := [], accepted := []),
            Connecting, opens);
      }
    case TimerFires(handle, opens) =>
      if handle in s.timers {
        ConnectIsWired(s.(timers := s.timers - {handle}, reconnectTimerRef := None), Reconnecting, opens);
      }
    case Reconnect(opens) => ConnectIsWired(Drop(s), Connecting, opens);
    case _ =>
  }

  lemma NextShows(s: State, event: Event)
    requires Wired(s) && Shows(s)
    ensures Shows(Next(s, event))
  {
    if event.Received? && Accepts(s, event.socket, event.packet) {
      AcceptShows(s, event.socket, event.packet.value);
    } else {
      OthersKeepTheList(s, event);
      SocketsStay(s, event);
    }
  }

  lemma OthersKeepTheList(s: State, event: Event)
    requires event.Received? ==> !Accepts(s, event.socket, event.packet)
    ensures var next := Next(s, event);
            || (next.accepted == s.accepted && next.messages == s.messages && next.identity == s.identity)
            || (next.accepted == [] && next.messages == [])
  {
    DropKeepsTheList(s);
    match event
    case Rerender(identity, opens) =>
      ConnectKeepsTheList(Drop(s).(mounted := true, identity := identity, messages := [], accepted := []),
                          Connecting, opens);
    case Mount(identity, opens) =>
      ConnectKeepsTheList(s.(mounted := true, identity := identity, messages := [], accepted := []), Connecting, opens);
    case TimerFires(handle, opens) =>
      ConnectKeepsTheList(s.(timers := s.timers - {handle}, reconnectTimerRef := None), Reconnecting, opens);
    case Reconnect(opens) => ConnectKeepsTheList(Drop(s), Connecting, opens);
    case _ =>
  }

  lemma ConnectKeepsTheList(s: State, status: Status, opens: bool)
    ensures var next := Connect(s, status, opens);
            next.accepted == s.accepted && next.messages == s.messages && next.identity == s.identity
  {
  }

  lemma DropKeepsTheList(s: State)
    ensures Drop(s).accepted == s.accepted && Drop(s).messages == s.messages && Drop(s).identity == s.identity
  {
  }

  // A socket, once made, is for the identity it was made for.
  predicate Stay(was: seq<Socket>, now: seq<Socket>) {
    |was| <= |now| && forall i :: 0 <= i < |was| ==> now[i].identity == was[i].identity
  }

  lemma ConnectStays(s: State, status: Status, opens: bool)
    ensures Stay(s.sockets, Connect(s, status, opens).sockets)
  {
  }

  lemma DropStays(s: State)
    ensures Stay(s.sockets, Drop(s).sockets) && |Drop(s).sockets| == |s.sockets|
  {
  }

  lemma SocketsStay(s: State, event: Event)
    ensures Stay(s.sockets, Next(s, event).sockets)
  {
    DropStays(s);
    match event
    case Mount(identity, opens) =>
      ConnectStays(s.(mounted := true, identity := identity, messages := [], accepted := []), Connecting, opens);
    case Rerender(identity, opens) =>
      ConnectStays(Drop(s).(mounted := true, identity := identity, messages := [], accepted := []), Connecting, opens);
    case TimerFires(handle, opens) =>
      ConnectStays(s.(timers := s.timers - {handle}, reconnectTimerRef := None), Reconnecting, opens);
    case Reconnect(opens) => ConnectStays(Drop(s), Connecting, opens);
    case _ =>
  }

  lemma AcceptShows(s: State, socket: nat, packet: Packet)
    requires Wired(s) && Shows(s) && Accepts(s, socket, Some(packet))
    ensures Shows(Next(s, Received(socket, Some(packet))))
  {
    var next := Next(s, Received(socket, Some(packet)));
    PacketsOneMore(s.accepted, Arrival(socket, packet));
    LastOfOneMore(Packets(s.accepted), packet);
    assert next.messages == LastOf(Packets(next.accepted), 300);
    assert AllBelong(next.accepted, s.sockets, s.identity);
  }

  lemma PacketsOneMore(arrivals: seq<Arrival>, arrival: Arrival)
    ensures Packets(arrivals + [arrival]) == Packets(arrivals) + [arrival.packet]
  {
    assert (arrivals + [arrival])[..|arrivals|] == arrivals;
  }

  lemma LastOfOneMore<T>(items: seq<T>, item: T)
    ensures LastOf(LastOf(items, MESSAGE_LIMIT), MESSAGE_LIMIT - 1) + [item] == LastOf(items + [item], MESSAGE_LIMIT)
  {
  }

  predicate Strays(events: seq<Event>) {
    events != [] &&
    var before := events[..|events| - 1];
    Strays(before) || Stray(Run(before), events[|events| - 1])
  }

  predicate AlwaysWired(events: seq<Event>) {
    Wired(Run(events)) && (events != [] ==> AlwaysWired(events[..|events| - 1]))
  }

  /** In every run the hook stays wired from beginning to end exactly if nobody calls `reconnect` while it
      is not mounted; and then the list is right throughout. */
  lemma {:induction false} WiredIff(events: seq<Event>)
    ensures AlwaysWired(events) <==> !Strays(events)
    ensures !Strays(events) ==> Shows(Run(events))
  {
    if events != [] {
      var before := events[..|events| - 1];
      WiredIff(before);
      if AlwaysWired(before) {
        NextIsWiredIff(Run(before), events[|events| - 1]);
        NextShows(Run(before), events[|events| - 1]);
      }
    }
  }

  lemma {:induction false} AtMostOneLive(events: seq<Event>, i: nat, j: nat)
    requires !Strays(events)
    requires i < |Run(events).sockets| && j < |Run(events).sockets|
    requires Run(events).sockets[i].live && Run(events).sockets[j].live
    ensures i == j && Run(events).mounted
  {
    WiredIff(events);
  }

  // A stray call leaves a socket open that nothing closes: after the next mount there are two.
  lemma StrayReconnectLeaks(me: Identity)
    ensures var s := Run([Mount(me, true), Unmount, Reconnect(true), Mount(me, true)]);
            |s.sockets| == 3 && s.sockets[1].live && s.sockets[2].live
  {
    var events := [Mount(me, true), Unmount, Reconnect(true), Mount(me, true)];
    forall n | 0 <= n < |events|
      ensures Run(events[..n + 1]) == Next(Run(events[..n]), events[n])
    {
      assert events[..n + 1][..n] == events[..n];
    }
    assert events[..4] == events;
    assert Run(events[..2]) == Next(Next(START, events[0]), events[1]);
    assert Run(events[..2]).sockets == [Socket(1, me, false)];
    assert Run(events[..3]).sockets == [Socket(1, me, false), Socket(4, me, true)];
  }

  // What a socket that is not the current one reports changes nothing the hook has.
  lemma StaleIsInert(s: State, socket: nat, packet: Option<Packet>)
    requires !Current(s, socket)
    ensures Next(s, Opened(socket)) == s && Next(s, Received(socket, packet)) == s
    ensures Next(s, Closed(socket)) == s.(sockets := Hangup(s.sockets, socket))
  {
  }

  // An event the browser can deliver: only a live socket opens, and only a timeout that is set fires.
  predicate CanHappen(s: State, event: Event) {
    match event
    case Opened(socket) => socket < |s.sockets| && s.sockets[socket].live
    case TimerFires(handle, _) => handle in s.timers
    case _ => true
  }

  /** Never wedged: while mounted, the present socket is live and its opening connects, or else the timeout that is
      set fires and then the new socket's opening does. */
  lemma {:induction false} CanConnect(events: seq<Event>) returns (more: seq<Event>)
    requires !Strays(events) && Run(events).mounted
    ensures 0 < |more| <= 2 && !Strays(events + more) && Run(events + more).status == Connected
    ensures Run(events).socketRef.Some? ==> more == [Opened(Run(events).socketRef.value)]
    ensures Run(events).socketRef.None? ==>
              && |more| == 2 && Run(events).reconnectTimerRef.Some?
              && more[0] == TimerFires(Run(events).reconnectTimerRef.value, true)
    ensures CanHappen(Run(events), more[0])
    ensures |more| == 2 ==> more[1].Opened? && CanHappen(Run(events + more[..1]), more[1])
  {
    WiredIff(events);
    var s := Run(events);
    if s.socketRef.Some? {
      OpeningConnects(events, s.socketRef.value);
      more := [Opened(s.socketRef.value)];
    } else {
      var fire := TimerFires(s.reconnectTimerRef.value, true);
      assert (events + [fire])[..|events|] == events;
      OpeningConnects(events + [fire], |s.sockets|);
      more := [fire, Opened(|s.sockets|)];
      assert more[..1] == [fire];
      assert events + more == events + [fire] + [Opened(|s.sockets|)];
    }
  }

  lemma OpeningConnects(events: seq<Event>, socket: nat)
    requires !Strays(events) && Current(Run(events), socket)
    ensures !Strays(events + [Opened(socket)]) && Run(events + [Opened(socket)]).status == Connected
  {
    assert (events + [Opened(socket)])[..|events|] == events;
  }

  // -------- what is shown and tried --------

  // Who the hook is mounted for, going by the renderings alone.
  function Rendered(events: seq<Event>): Option<Identity> {
    if events == [] then None
    else
      var before := Rendered(events[..|events| - 1]);
      match events[|events| - 1]
      case Mount(identity, _) => if before.None? then Some(identity) else before
      case Rerender(identity, _) => if before.Some? then Some(identity) else None
      case Unmount => None
      case _ => before
  }

  // The socket has been made, and has opened since.
  predicate HasOpened(events: seq<Event>, socket: nat) {
    events != [] &&
    var before := events[..|events| - 1];
    HasOpened(before, socket) || (events[|events| - 1] == Opened(socket) && socket < |Run(before).sockets|)
  }

  // The events that start afresh: another identity, the end, and the user's wish.
  predicate StartsAfresh(s: State, event: Event) {
    || (event.Rerender? && s.mounted && event.identity != s.identity)
    || (event.Unmount? && s.mounted) || event.Reconnect?
  }

  // How many reconnects have been scheduled since the current socket last opened or everything started afresh.
  function Retries(events: seq<Event>): nat {
    if events == [] then 0
    else
      var before, last := events[..|events| - 1], events[|events| - 1];
      var s := Run(before);
      (if StartsAfresh(s, last) || (last.Opened? && s.socketRef == Some(last.socket)) then 0 else Retries(before))
      + (if Run(events).nextHandle > s.nextHandle then 1 else 0)
  }

  // The danmaku of the present room that came from the current socket since the identity was rendered.
  function Arrivals(events: seq<Event>): seq<Arrival> {
    if events == [] then []
    else
      var before, last := events[..|events| - 1], events[|events| - 1];
      var s := Run(before);
      match last
      case Mount(_, _) => if s.mounted then Arrivals(before) else []
      case Rerender(identity, _) => if s.mounted && identity != s.identity then [] else Arrivals(before)
      case Received(socket, packet) =>
        if s.socketRef == Some(socket) && packet.Some? && packet.value.Danmaku?
           && packet.value.roomId == s.identity.roomId
        then Arrivals(before) + [Arrival(socket, packet.value)] else Arrivals(before)
      case _ => Arrivals(before)
  }

  lemma {:induction false} MountedIsRendered(events: seq<Event>)
    ensures var s := Run(events);
            s.mounted == Rendered(events).Some? && (s.mounted ==> s.identity == Rendered(events).value)
  {
    if events != [] {
      MountedIsRendered(events[..|events| - 1]);
      NextMounts(Run(events[..|events| - 1]), events[|events| - 1]);
    }
  }

  lemma ConnectFrame(s: State, status: Status, opens: bool)
    ensures var next := Connect(s, status, opens);
            && next.mounted == s.mounted && next.identity == s.identity && next.accepted == s.accepted
            && |next.sockets| == |s.sockets| + (if opens then 1 else 0)
            && next.attempt == s.attempt + (if opens then 0 else 1)
            && next.nextHandle == s.nextHandle + (if opens then 0 else 1)
            && next.status == (if opens then status else Reconnecting)
            && next.socketRef == (if opens then Some(|s.sockets|) else s.socketRef)
            && (!opens ==> next.reconnectTimerRef == Some(s.nextHandle) && s.nextHandle in next.timers
                           && next.timers[s.nextHandle].delay == Delay(s.attempt))
  {
  }

  lemma DropFrame(s: State)
    ensures var next := Drop(s);
            && next.mounted == s.mounted && next.identity == s.identity && next.accepted == s.accepted
            && |next.sockets| == |s.sockets| && next.attempt == 0 && next.nextHandle == s.nextHandle
            && next.socketRef == None
  {
  }

  lemma NextMounts(s: State, event: Event)
    ensures var next := Next(s, event);
            match event
            case Mount(identity, _) => next.mounted && next.identity == (if s.mounted then s.identity else identity)
            case Rerender(identity, _) => next.mounted == s.mounted && (s.mounted ==> next.identity == identity)
            case Unmount => !next.mounted
            case _ => next.mounted == s.mounted && next.identity == s.identity
  {
    hide Connect, Drop;
    DropFrame(s);
    match event
    case Mount(identity, opens) =>
      ConnectFrame(s.(mounted := true, identity := identity, messages := [], accepted := []), Connecting, opens);
    case Rerender(identity, opens) =>
      ConnectFrame(Drop(s).(mounted := true, identity := identity, messages := [], accepted := []), Connecting, opens);
    case TimerFires(handle, opens) =>
      ConnectFrame(s.(timers := s.timers - {handle}, reconnectTimerRef := None), Reconnecting, opens);
    case Reconnect(opens) => ConnectFrame(Drop(s), Connecting, opens);
    case _ =>
  }

  /** The list has accepted exactly those danmaku: nothing that belongs there is left out. */
  lemma {:induction false} AcceptsAll(events: seq<Event>)
    requires !Strays(events)
    ensures Run(events).accepted == Arrivals(events)
  {
    if events != [] {
      var before, last := events[..|events| - 1], events[|events| - 1];
      AcceptsAll(before);
      WiredIff(before);
      NextAccepts(Run(before), last);
    }
  }

  lemma NextAccepts(s: State, event: Event)
    requires Wired(s)
    ensures var next := Next(s, event);
            match event
            case Mount(_, _) => next.accepted == if s.mounted then s.accepted else []
            case Rerender(identity, _) =>
              next.accepted == if s.mounted && identity != s.identity then [] else s.accepted
            case Received(socket, packet) =>
              next.accepted ==
              if s.socketRef == Some(socket) && packet.Some? && packet.value.Danmaku?
                 && packet.value.roomId == s.identity.roomId
              then s.accepted + [Arrival(socket, packet.value)] else s.accepted
            case _ => next.accepted == s.accepted
  {
    hide Connect, Drop;
    DropFrame(s);
    match event
    case Mount(identity, opens) =>
      ConnectFrame(s.(mounted := true, identity := identity, messages := [], accepted := []), Connecting, opens);
    case Rerender(identity, opens) =>
      ConnectFrame(Drop(s).(mounted := true, identity := identity, messages := [], accepted := []), Connecting, opens);
    case TimerFires(handle, opens) =>
      ConnectFrame(s.(timers := s.timers - {handle}, reconnectTimerRef := None), Reconnecting, opens);
    case Reconnect(opens) => ConnectFrame(Drop(s), Connecting, opens);
    case _ =>
  }

  // How the attempts and the timeouts go on.
  lemma NextRetries(s: State, event: Event)
    requires Wired(s) && !Stray(s, event)
    ensures var next := Next(s, event);
            && next.nextHandle >= s.nextHandle
            && next.attempt
               == (if StartsAfresh(s, event) || (event.Opened? && s.socketRef == Some(event.socket)) then 0
                   else s.attempt)
                  + (if next.nextHandle > s.nextHandle then 1 else 0)
  {
    hide Connect, Drop;
    DropFrame(s);
    match event
    case Mount(identity, opens) =>
      ConnectFrame(s.(mounted := true, identity := identity, messages := [], accepted := []), Connecting, opens);
    case Rerender(identity, opens) =>
      ConnectFrame(Drop(s).(mounted := true, identity := identity, messages := [], accepted := []), Connecting, opens);
    case TimerFires(handle, opens) =>
      ConnectFrame(s.(timers := s.timers - {handle}, reconnectTimerRef := None), Reconnecting, opens);
    case Reconnect(opens) => ConnectFrame(Drop(s), Connecting, opens);
    case _ =>
  }

  /** The attempt counts the reconnects scheduled since the current socket last opened or everything started
      afresh; so the n-th in a row waits for half a second doubled n - 1 times, or ten seconds. */
  lemma {:induction false} AttemptsAreRetries(events: seq<Event>)
    requires !Strays(events)
    ensures var s := Run(events);
            && s.attempt == Retries(events)
            && (s.reconnectTimerRef.Some? ==>
                  && s.reconnectTimerRef.value in s.timers && Retries(events) > 0
                  && s.timers[s.reconnectTimerRef.value].delay == Min(500 * Pow2(Retries(events) - 1), 10000))
  {
    WiredIff(events);
    if events != [] {
      var before, last := events[..|events| - 1], events[|events| - 1];
      AttemptsAreRetries(before);
      WiredIff(before);
      NextRetries(Run(before), last);
    }
  }

  // What makes the hook try a connection.
  predicate Tries(s: State, event: Event) {
    match event
    case Mount(_, _) => !s.mounted
    case Rerender(identity, _) => s.mounted && identity != s.identity
    case TimerFires(handle, _) => handle in s.timers
    case Reconnect(_) => true
    case _ => false
  }

  /** Each try makes the next socket, live and current, or else sets a timeout; nothing else makes a socket. */
  lemma NextTries(s: State, event: Event)
    requires Wired(s) && !Stray(s, event)
    ensures var next := Next(s, event);
            && (Tries(s, event) && event.opens ==>
                  && next.socketRef == Some(|s.sockets|) && |next.sockets| == |s.sockets| + 1
                  && next.sockets[|s.sockets|].live && next.sockets[|s.sockets|].identity == next.identity)
            && (Tries(s, event) && !event.opens ==> next.reconnectTimerRef == Some(s.nextHandle))
            && (!Tries(s, event) || !event.opens ==> |next.sockets| == |s.sockets|)
  {
    var next := Next(s, event);
    assert |next.sockets| == |s.sockets| + (if Tries(s, event) && event.opens then 1 else 0)
           && (Tries(s, event) ==> if event.opens then next.socketRef == Some(|s.sockets|)
                                   else next.reconnectTimerRef == Some(s.nextHandle)) by {
      NextFrame(s, event);
    }
    NextIsWiredIff(s, event);
  }

  lemma NextFrame(s: State, event: Event)
    requires Wired(s) && !Stray(s, event)
    ensures var next := Next(s, event);
            && |next.sockets| == |s.sockets| + (if Tries(s, event) && event.opens then 1 else 0)
            && (Tries(s, event) ==>
                  && next.status == (if !event.opens || event.TimerFires? then Reconnecting else Connecting)
                  && next.attempt == (if StartsAfresh(s, event) then 0 else s.attempt) + (if event.opens then 0 else 1)
                  && if event.opens then next.socketRef == Some(|s.sockets|)
                     else next.socketRef == None && next.reconnectTimerRef == Some(s.nextHandle))
            && (!Tries(s, event) && next.socketRef != s.socketRef ==> next.socketRef == None)
  {
    hide Connect, Drop;
    DropFrame(s);
    match event
    case Mount(identity, opens) =>
      ConnectFrame(s.(mounted := true, identity := identity, messages := [], accepted := []), Connecting, opens);
    case Rerender(identity, opens) =>
      ConnectFrame(Drop(s).(mounted := true, identity := identity, messages := [], accepted := []), Connecting, opens);
    case TimerFires(handle, opens) =>
      ConnectFrame(s.(timers := s.timers - {handle}, reconnectTimerRef := None), Reconnecting, opens);
    case Reconnect(opens) => ConnectFrame(Drop(s), Connecting, opens);
    case _ =>
  }

  /** When the current socket closes, a reconnect is scheduled at once, and nothing is opened before it. */
  lemma {:induction false} CloseSchedules(events: seq<Event>, socket: nat)
    requires !Strays(events) && Run(events).socketRef == Some(socket)
    ensures var s, next := Run(events), Run(events + [Closed(socket)]);
            && next.socketRef == None && next.status == Reconnecting && |next.sockets| == |s.sockets|
            && next.reconnectTimerRef.Some? && next.reconnectTimerRef.value in next.timers
            && next.timers[next.reconnectTimerRef.value].delay == Min(500 * Pow2(Retries(events)), 10000)
  {
    WiredIff(events);
    AttemptsAreRetries(events);
    assert (events + [Closed(socket)])[..|events|] == events;
  }

  lemma {:induction false} OpenedWereMade(events: seq<Event>, socket: nat)
    requires HasOpened(events, socket)
    ensures socket < |Run(events).sockets|
  {
    var before, last := events[..|events| - 1], events[|events| - 1];
    if HasOpened(before, socket) {
      OpenedWereMade(before, socket);
    }
    SocketsStay(Run(before), last);
  }

  // What the user is told, when the current socket has opened or not.
  predicate Tells(s: State, up: bool) {
    && (s.mounted && s.socketRef.Some? && up ==> s.status == Connected && s.attempt == 0)
    && (s.mounted && (s.socketRef.None? || !up) ==>
          s.status == if s.attempt > 0 then Reconnecting else Connecting)
    && (!s.mounted ==> s.attempt == 0)
  }

  lemma NextTells(s: State, event: Event, up: bool)
    requires Wired(s) && !Stray(s, event) && Tells(s, up)
    ensures var next := Next(s, event);
            Tells(next, if Tries(s, event) then false else up || (event.Opened? && s.socketRef == Some(event.socket)))
  {
    var next := Next(s, event);
    NextMounts(s, event);
    if Tries(s, event) {
      hide Next;
      NextFrame(s, event);
    }
  }

  /** "connected" is shown exactly while the current socket has opened; otherwise "reconnecting" after a failed
      attempt and "connecting" before one. */
  lemma {:induction false} StatusIsTrue(events: seq<Event>)
    requires !Strays(events)
    ensures var s := Run(events); Tells(s, s.socketRef.Some? && HasOpened(events, s.socketRef.value))
  {
    if events != [] {
      var before, last := events[..|events| - 1], events[|events| - 1];
      var s, next := Run(before), Run(events);
      StatusIsTrue(before);
      WiredIff(before);
      NextTells(s, last, s.socketRef.Some? && HasOpened(before, s.socketRef.value));
      NextFrame(s, last);
      if Tries(s, last) && last.opens && HasOpened(before, |s.sockets|) {
        OpenedWereMade(before, |s.sockets|);
      }
    }
  }

  /** The delay doubles from half a second up to ten, where it stays from the sixth attempt on. */
  lemma {:induction false} DelayDoubles(n: nat)
    ensures Delay(0) == INITIAL_RETRY_DELAY
    ensures Delay(n + 1) == Min(2 * Delay(n), MAX_RETRY_DELAY)
    ensures Delay(n) == MAX_RETRY_DELAY <==> n >= 5
    ensures INITIAL_RETRY_DELAY <= Delay(n)
  {
    assert Pow2(1) == 2 && Pow2(2) == 4 && Pow2(3) == 8 && Pow2(4) == 16 && Pow2(5) == 32;
    if n > 0 {
      DelayDoubles(n - 1);
    }
  }

  // -------- the code --------

  class DanmakuSocket {
    var mounted: bool
    var identity: Identity
    var status: Status
    var messages: seq<Packet>
    var socketRef: Option<nat>
    var reconnectTimerRef: Option<nat>
    var attempt: nat
    var generation: nat
    // the browser
    var sockets: seq<Socket>
    var timers: map<nat, Timer>
    var nextHandle: nat
    ghost var accepted: seq<Arrival>

    ghost function View(): State
      reads this
    {
      State(mounted, identity, status, messages, socketRef, reconnectTimerRef, attempt, generation,
            sockets, timers, nextHandle, accepted)
    }

    constructor ()
      ensures View() == START
    {
      mounted, identity, status, messages := false, NOBODY, Connecting, [];
      socketRef, reconnectTimerRef, attempt, generation := None, None, 0, 0;
      sockets, timers, nextHandle, accepted := [], map[], 0, [];
    }

    method ClearTimer()
      modifies this`timers, this`reconnectTimerRef
      ensures View() == ClearReconnectTimer(old(View()))
    {
      if reconnectTimerRef.Some? {
        timers := timers - {reconnectTimerRef.value};
        reconnectTimerRef := None;
      }
    }

    method Schedule(generation: nat)
      modifies this`attempt, this`status, this`reconnectTimerRef, this`timers, this`nextHandle
      ensures View() == ScheduleReconnect(old(View()), generation)
    {
      if generation != this.generation || reconnectTimerRef.Some? {
        return;
      }
      var delay := Delay(attempt);
      attempt := attempt + 1;
      status := Reconnecting;
      timers := timers[nextHandle := Timer(generation, delay)];
      reconnectTimerRef := Some(nextHandle);
      nextHandle := nextHandle + 1;
    }

    method Open(nextStatus: Status, opens: bool)
      modifies this
      ensures View() == Connect(old(View()), nextStatus, opens)
    {
      ClearTimer();
      generation := generation + 1;
      status := nextStatus;
      if !opens {
        Schedule(generation);
        return;
      }
      sockets := sockets + [Socket(generation, identity, true)];
      socketRef := Some(|sockets| - 1);
    }

    method LetGo()
      modifies this
      ensures View() == Drop(old(View()))
    {
      ClearTimer();
      attempt := 0;
      generation := generation + 1;
      var socket := socketRef;
      socketRef := None;
      if socket.Some? {
        sockets := Hangup(sockets, socket.value);
      }
    }

    // Rendering with an identity: the layout effect, after the cleanup of the one before.
    method Render(identity: Identity, opens: bool)
      modifies this
      ensures View() == if old(mounted) then Next(old(View()), Rerender(identity, opens))
                        else Next(old(View()), Mount(identity, opens))
    {
      if mounted {
        if identity == this.identity {
          return;
        }
        LetGo();
      }
      mounted, this.identity := true, identity;
      messages, accepted := [], [];
      Open(Connecting, opens);
    }

    method OnUnmount()
      requires mounted
      modifies this
      ensures View() == Next(old(View()), Unmount)
    {
      LetGo();
      mounted := false;
    }

    method OnOpen(socket: nat)
      requires socket < |sockets|
      modifies this`attempt, this`status
      ensures View() == Next(old(View()), Opened(socket))
    {
      if sockets[socket].generation != generation || socketRef != Some(socket) {
        return;
      }
      attempt := 0;
      status := Connected;
    }

    method OnMessage(socket: nat, packet: Option<Packet>)
      requires socket < |sockets|
      modifies this`messages, this`accepted
      ensures View() == Next(old(View()), Received(socket, packet))
    {
      if sockets[socket].generation != generation || socketRef != Some(socket) {
        return;
      }
      if packet.None? || packet.value.roomId != identity.roomId {
        return;
      }
      if packet.value.Danmaku? {
        var from := if |messages| <= MESSAGE_LIMIT - 1 then 0 else |messages| - (MESSAGE_LIMIT - 1);
        messages := messages[from..] + [packet.value];
        accepted := accepted + [Arrival(socket, packet.value)];
      }
    }

    method OnClose(socket: nat)
      requires socket < |sockets|
      modifies this
      ensures View() == Next(old(View()), Closed(socket))
    {
      sockets := sockets[socket := sockets[socket].(live := false)];
      if sockets[socket].generation != generation || socketRef != Some(socket) {
        return;
      }
      socketRef := None;
      Schedule(sockets[socket].generation);
    }

    method OnTimeout(handle: nat, opens: bool)
      requires handle in timers
      modifies this
      ensures View() == Next(old(View()), TimerFires(handle, opens))
    {
      var due := timers[handle].generation;
      timers := timers - {handle};
      reconnectTimerRef := None;
      if due == generation {
        Open(Reconnecting, opens);
      }
    }

    method OnReconnect(opens: bool)
      modifies this
      ensures View() == Next(old(View()), Reconnect(opens))
    {
      LetGo();
      Open(Connecting, opens);
    }
  }
}
