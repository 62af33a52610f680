/** The multiplexer object. Each public call and each frame handler is proved to do
    to the object what module Mux says it does to the state.
 */
module MuxSessions {
  import opened Frames
  import opened Streams
  import opened StreamTable
  import opened StreamSessions
  import opened WriteQueues
  import Mux
  import ServiceLists
  import Windows

  datatype AcceptResult = Accepted(s: StreamSession) | WouldWait

  datatype OpenResult = Opened(s: StreamSession) | GoingAway | MaxStreamsExceeded

  ghost function Views(ss: seq<StreamSession>): (vs: seq<Session>)
    reads ss
    ensures |vs| == |ss|
    ensures forall i :: 0 <= i < |ss| ==> vs[i] == ss[i].View()
  {
    seq(|ss|, i requires 0 <= i < |ss| reads ss => ss[i].View())
  }

  ghost function Numbers(m: map<UInt32, StreamSession>): (r: map<UInt32, nat>)
    ensures r.Keys == m.Keys
    ensures forall id :: id in m ==> r[id] == m[id].inc
  {
    map id | id in m :: m[id].inc
  }

  lemma NumbersDrop(m: map<UInt32, StreamSession>, id: UInt32)
    ensures Numbers(m - {id}) == Numbers(m) - {id}
  {
  }

  lemma NumbersAdd(m: map<UInt32, StreamSession>, id: UInt32, s: StreamSession)
    ensures Numbers(m[id := s]) == Numbers(m)[id := s.inc]
  {
  }

  class MuxSession {
    const start: UInt32
    const max: nat
    const window: int
    const queue: WriteQueue
    const connSendWindow: Windows.FlowWindow

    var streams: map<UInt32, StreamSession>
    var nextStreamID: UInt32
    var freeIDs: seq<UInt32>
    var pendingOpen: map<UInt32, StreamSession>
    var goingAway: bool

    /** The streams that peers have opened and nobody has accepted yet. */
    var acceptCh: seq<StreamSession>

    /** The channel of capacity one that carries the peer's service list. */
    var serviceListCh: Option<seq<Bytes>>

    /** Every session ever installed, by identifier and age, and their set; how many
        resets the onReset callback sent and how many sessions were installed. */
    ghost var all: map<UInt32, seq<StreamSession>>
    ghost var repr: set<StreamSession>
    ghost var resets: nat
    ghost var installs: nat

    ghost predicate Valid()
      reads this, queue
    {
      && !queue.closed
      && Indexed()
      && (forall id :: id in streams ==>
            id in all && streams[id].inc < |all[id]| && all[id][streams[id].inc] == streams[id])
    }

    ghost predicate Listed(id: UInt32, ss: seq<StreamSession>)
      reads this`repr
    {
      forall n :: 0 <= n < |ss| ==> ss[n] in repr && ss[n].id == id && ss[n].inc == n
    }

    ghost predicate Indexed()
      reads this`all, this`repr
    {
      forall id :: id in all ==> Listed(id, all[id])
    }

    ghost function Sessions(): map<UInt32, seq<Session>>
      requires Indexed()
      reads this`all, this`repr, repr
    {
      map id | id in all :: Views(all[id])
    }

    ghost function View(): Mux.State
      requires Valid()
      reads this, queue, repr
    {
      Mux.State(
        Table(start, max, nextStreamID, freeIDs, Numbers(streams), Sessions(), Numbers(pendingOpen), goingAway),
        window, queue.control, queue.data, resets, installs)
    }

    ghost predicate Knows(s: StreamSession)
      reads this`all
    {
      s.id in all && s.inc < |all[s.id]| && all[s.id][s.inc] == s
    }

    constructor (start: UInt32, max: nat, window: int, connectionWindow: int)
      ensures Valid() && fresh(queue) && fresh(connSendWindow) && repr == {}
      ensures View() == Mux.NewState(start, max, window) && acceptCh == [] && serviceListCh.None?
      ensures var size := Windows.Wrap32(connectionWindow); connSendWindow.View() == Windows.Window(size, size)
    {
      this.start, this.max, this.window := start, max, window;
      queue := new WriteQueue();
      connSendWindow := new Windows.FlowWindow(connectionWindow);
      acceptCh, serviceListCh := [], None;
      streams, pendingOpen := map[], map[];
      nextStreamID := start;
      freeIDs := [];
      goingAway := false;
      all, repr, resets, installs := map[], {}, 0, 0;
    }

    predicate OwnsID(id: UInt32)
      reads this
    {
      id % 2 == nextStreamID % 2
    }

    method FreeID(id: UInt32)
      requires Valid()
      modifies this`freeIDs
      ensures Valid() && freeIDs == if OwnsID(id) then old(freeIDs) + [id] else old(freeIDs)
    {
      if id % 2 == nextStreamID % 2 {
        freeIDs := freeIDs + [id];
      }
    }

    /** delete(streams, id) and freeID(id), under the lock. */
    method Remove(id: UInt32)
      requires Valid()
      modifies this`freeIDs, this`streams
      ensures Valid() && View() == old(View()).(t := old(View()).t.Drop(id))
    {
      NumbersDrop(streams, id);
      streams := streams - {id};
      FreeID(id);
    }

    method MaybeRemoveStream(id: UInt32, s: StreamSession)
      requires Valid()
      modifies this`freeIDs, this`streams
      ensures Valid() && View() == Mux.MaybeRemove(old(View()), id, s.View())
    {
      if s.state == StreamState.Closed || s.state == StreamState.Reset {
        Remove(id);
      }
    }

    /** Only session `s` changed, so the view changed at its place alone. */
    twostate lemma OnlySession(s: StreamSession)
      requires old(Valid()) && Valid() && Knows(s)
      requires all == old(all) && repr == old(repr)
      requires forall o :: o in repr && o != s ==> o.View() == old(o.View())
      ensures Sessions() == old(View()).t.Put(s.id, s.inc, s.View()).incs
      ensures old(View()).t.Has(s.id, s.inc) && old(View()).t.Get(s.id, s.inc) == old(s.View())
    {
      var was, now := old(Sessions()), Sessions();
      forall id | id in all && id != s.id ensures now[id] == was[id] {
        assert Listed(id, all[id]);
      }
      assert Listed(s.id, all[s.id]);
      assert now[s.id] == was[s.id][s.inc := s.View()];
    }

    /** A session changed and nothing else did. */
    twostate lemma Replaced(s: StreamSession)
      requires old(Valid()) && Valid() && Knows(s)
      requires all == old(all) && repr == old(repr) && streams == old(streams) && freeIDs == old(freeIDs)
      requires nextStreamID == old(nextStreamID) && pendingOpen == old(pendingOpen) && goingAway == old(goingAway)
      requires resets == old(resets) && installs == old(installs)
      requires queue.control == old(queue.control) && queue.data == old(queue.data)
      requires forall o :: o in repr && o != s ==> o.View() == old(o.View())
      ensures old(View()).t.Has(s.id, s.inc) && old(View()).t.Get(s.id, s.inc) == old(s.View())
      ensures View() == old(View()).(t := old(View()).t.Put(s.id, s.inc, s.View()))
    {
      OnlySession(s);
      hide Sessions, Numbers, Indexed;
    }

    method Close(s: StreamSession)
      requires Valid() && Knows(s)
      modifies this`freeIDs, this`streams, s
      ensures Valid() && View() == Mux.CloseStream(old(View()), s.id, s.inc)
    {
      hide View, Valid;
      var notify := s.Close();
      Replaced(s);
      if notify {
        MaybeRemoveStream(s.id, s);
      } else {
        PutSame(old(View()).t, s.id, s.inc);
      }
    }

    /** The onReset callback of the session of `id`. */
    method OnReset(id: UInt32, code: UInt32)
      requires Valid()
      modifies this`freeIDs, this`streams, this`resets, queue
      ensures Valid()
      ensures var m := old(View());
              View() == if id in m.t.live
                        then m.(t := m.t.Drop(id),
                                control := m.control + [ResetFrame(id, code)],
                                resets := m.resets + 1)
                        else m
    {
      assert id in streams <==> id in View().t.live;
      hide View, Valid;
      if id in streams {
        Remove(id);
        CountReset();
        SendControl(ResetFrame(id, code));
      }
    }

    ghost method CountReset()
      requires Valid()
      modifies this`resets
      ensures Valid() && View() == old(View()).(resets := old(View()).resets + 1)
    {
      resets := resets + 1;
    }

    /** Reset of a session, with its callback. */
    method Reset(s: StreamSession, code: UInt32)
      requires Valid() && Knows(s)
      modifies this`freeIDs, this`streams, this`resets, queue, s
      ensures Valid() && View() == Mux.ResetStream(old(View()), s.id, s.inc, code)
    {
      hide View, Valid;
      var notify := s.Reset();
      Replaced(s);
      if notify {
        OnReset(s.id, code);
      } else {
        PutSame(old(View()).t, s.id, s.inc);
      }
    }

    method CleanupPendingOpen(id: UInt32)
      requires Valid()
      modifies this`pendingOpen
      ensures Valid() && View() == old(View()).(t := old(View()).t.(pending := old(View()).t.pending - {id}))
    {
      NumbersDrop(pendingOpen, id);
      pendingOpen := pendingOpen - {id};
    }

    /** removeStream: the entry goes first, so the onReset callback finds none. */
    method RemoveStream(id: UInt32)
      requires Valid()
      modifies this`freeIDs, this`streams, repr
      ensures Valid()
      ensures var m := old(View());
              View() == if id in m.t.live && m.t.Has(id, m.t.live[id])
                        then m.(t := m.t.Drop(id).Put(id, m.t.live[id], m.t.Get(id, m.t.live[id]).ResetNow()))
                        else m
    {
      if id in streams {
        var s := streams[id];
        assert Listed(id, all[id]);
        Remove(id);
        var _ := s.Reset();
        OnlySession(s);
      }
    }

    /** The open call gives up while it waits for the answer. */
    method CancelOpen(id: UInt32)
      requires Valid()
      modifies this`freeIDs, this`streams, this`pendingOpen, repr
      ensures Valid() && View() == Mux.CancelOpen(old(View()), id)
    {
      CleanupPendingOpen(id);
      RemoveStream(id);
    }

    static method NewOpen(id: UInt32, window: int, payload: Bytes, ghost inc: nat) returns (s: StreamSession)
      ensures fresh(s) && s.id == id && s.inc == inc && s.View() == OpenSession(id, window, payload)
    {
      s := new StreamSession(id, window, inc);
      s.SetOpenPayload(payload);
      s.Open();
    }

    /** Puts a new session in the table. */
    method Install(id: UInt32, payload: Bytes) returns (s: StreamSession)
      requires Valid()
      modifies this`streams, this`all, this`repr, this`installs
      ensures Valid() && fresh(s) && Knows(s) && s.id == id && s.inc == |old(View()).t.Incs(id)|
      ensures id in streams && streams[id] == s
      ensures View() == Mux.InstallSession(old(View()), OpenSession(id, old(View()).window, payload))
    {
      ghost var m := View();
      assert m.window == window;
      hide View, Valid;
      s := NewOpen(id, window, payload, |m.t.Incs(id)|);
      assert View() == m;
      RegisterNew(s);
      Enter(s);
      assert View() == Mux.InstallSession(m, OpenSession(id, m.window, payload));
    }

    lemma IncsAre(id: UInt32)
      requires Valid()
      ensures |View().t.Incs(id)| == if id in all then |all[id]| else 0
    {
    }

    ghost method RegisterNew(s: StreamSession)
      requires Valid() && s !in repr && s.inc == |View().t.Incs(s.id)|
      modifies this`all, this`repr, this`installs
      ensures Valid() && Knows(s) && repr == old(repr) + {s}
      ensures View() == old(View()).(installs := old(View()).installs + 1,
                                     t := old(View()).t.(incs := old(View()).t.Install(s.id, s.View()).incs))
    {
      hide Sessions, Numbers, Indexed;
      var m := View();
      IncsAre(s.id);
      Register(s);
      assert Sessions() == m.t.Install(s.id, s.View()).incs;
    }

    method Enter(s: StreamSession)
      requires Valid() && Knows(s)
      modifies this`streams
      ensures Valid() && View() == old(View()).(t := old(View()).t.(live := old(View()).t.live[s.id := s.inc]))
      ensures s.id in streams && streams[s.id] == s
    {
      NumbersAdd(streams, s.id, s);
      hide Sessions, Indexed, Numbers;
      streams := streams[s.id := s];
    }

    ghost method Register(s: StreamSession)
      requires Indexed() && s !in repr
      requires s.inc == |if s.id in all then all[s.id] else []|
      modifies this`all, this`repr, this`installs
      ensures Indexed() && Knows(s) && repr == old(repr) + {s} && installs == old(installs) + 1
      ensures all == old(all)[s.id := (if s.id in old(all) then old(all)[s.id] else []) + [s]]
      ensures var was := old(Sessions());
              Sessions() == was[s.id := (if s.id in was then was[s.id] else []) + [s.View()]]
    {
      var was := Sessions();
      var before := if s.id in all then all[s.id] else [];
      all := all[s.id := before + [s]];
      repr := repr + {s};
      installs := installs + 1;
      forall id | id in old(all) ensures Views(old(all)[id]) == was[id] {
        assert old(Listed(id, all[id]));
      }
      assert Views(before + [s]) == Views(before) + [s.View()];
    }

    method Allocate() returns (id: UInt32)
      requires Valid()
      modifies this`freeIDs, this`nextStreamID
      ensures Valid() && id == old(View()).t.NextID()
      ensures View() == old(View()).(t := old(View()).t.Allocate())
    {
      if |freeIDs| > 0 {
        id := freeIDs[|freeIDs| - 1];
        freeIDs := freeIDs[..|freeIDs| - 1];
      } else {
        id := nextStreamID;
        nextStreamID := (nextStreamID + 2) % TWO_TO_32;
      }
    }

    method AwaitAnswer(id: UInt32, s: StreamSession)
      requires Valid()
      modifies this`pendingOpen
      ensures Valid() && View() == old(View()).(t := old(View()).t.(pending := old(View()).t.pending[id := s.inc]))
    {
      NumbersAdd(pendingOpen, id, s);
      pendingOpen := pendingOpen[id := s];
    }

    method SendData(f: Frame)
      requires Valid()
      modifies queue
      ensures Valid() && View() == old(View()).(data := old(View()).data + [f])
    {
      queue.Enqueue(f, PRIORITY_DATA);
    }

    method SendControl(f: Frame)
      requires Valid()
      modifies queue
      ensures Valid() && View() == old(View()).(control := old(View()).control + [f])
    {
      queue.Enqueue(f, PRIORITY_CONTROL);
    }

    /** The part of OpenStreamWithPayload after its two refusals, up to its wait for
        the answer. */
    method DoOpen(payload: Bytes) returns (s: StreamSession)
      requires Valid()
      modifies this`nextStreamID, this`freeIDs, this`pendingOpen, this`streams
      modifies this`all, this`repr, this`installs, queue
      ensures Valid() && View() == Mux.OpenStream(old(View()), payload)
      ensures Knows(s) && s.id == old(View()).t.NextID() && s.inc == |old(View()).t.Incs(s.id)|
    {
      hide View, Valid;
      var id := Allocate();
      s := Install(id, []);
      AwaitAnswer(id, s);
      SendData(OpenFrame(id, payload));
    }

    method OpenStreamWithPayload(payload: Bytes) returns (r: OpenResult)
      requires Valid()
      modifies this`nextStreamID, this`freeIDs, this`pendingOpen, this`streams
      modifies this`all, this`repr, this`installs, queue
      ensures Valid()
      ensures r.GoingAway? <==> old(goingAway)
      ensures r.MaxStreamsExceeded? <==> !old(goingAway) && |old(streams)| >= max
      ensures r.Opened? <==> old(View()).t.CanOpen()
      ensures r.Opened? ==> View() == Mux.OpenStream(old(View()), payload)
      ensures r.Opened? ==> Knows(r.s) && r.s.id == old(View()).t.NextID() && r.s.inc == |old(View()).t.Incs(r.s.id)|
      ensures !r.Opened? ==> View() == old(View())
    {
      NumbersCount(streams);
      if goingAway {
        return GoingAway;
      }
      if |streams| >= max {
        return MaxStreamsExceeded;
      }
      var s := DoOpen(payload);
      r := Opened(s);
    }

    // -------------------------------------------------------- frame handlers

    /** The live session of `id`, seen in the view. */
    lemma LiveView(id: UInt32)
      requires Valid()
      ensures id in streams <==> Mux.Found(View(), id)
      ensures id in View().t.live <==> id in streams
      ensures id in streams ==> Knows(streams[id]) && streams[id] in repr && streams[id].id == id
                                && View().t.live[id] == streams[id].inc && Mux.GetLive(View(), id) == streams[id].View()
    {
      if id in streams {
        assert Listed(id, all[id]);
      }
    }

    /** One session of the table was replaced. */
    twostate lemma ReplacedLive(s: StreamSession)
      requires old(Valid()) && Valid() && old(s.id in streams && streams[s.id] == s)
      requires all == old(all) && repr == old(repr) && streams == old(streams) && freeIDs == old(freeIDs)
      requires nextStreamID == old(nextStreamID) && pendingOpen == old(pendingOpen) && goingAway == old(goingAway)
      requires resets == old(resets) && installs == old(installs)
      requires queue.control == old(queue.control) && queue.data == old(queue.data)
      requires forall o :: o in repr && o != s ==> o.View() == old(o.View())
      ensures Mux.Found(old(View()), s.id) && View() == Mux.PutLive(old(View()), s.id, s.View())
    {
      Replaced(s);
      hide Sessions, Indexed;
    }

    method HandleStreamClose(id: UInt32)
      requires Valid()
      modifies this`freeIDs, this`streams, repr
      ensures Valid() && View() == Mux.HandleClose(old(View()), id)
    {
      LiveView(id);
      if id !in streams {
        return;
      }
      var s := streams[id];
      s.RemoteClose();
      ReplacedLive(s);
      hide View, Valid;
      MaybeRemoveStream(id, s);
    }

    method HandleStreamData(f: Frame)
      requires Valid()
      modifies this`freeIDs, this`streams, repr
      ensures Valid() && View() == Mux.HandleData(old(View()), f)
    {
      var id := f.streamID;
      LiveView(id);
      if id !in streams {
        return;
      }
      if |f.payload| > 0 {
        DeliverTo(id, f.payload);
      }
      if f.Fin() {
        hide View, Valid;
        HandleStreamClose(id);
      }
    }

    method DeliverTo(id: UInt32, data: Bytes)
      requires Valid() && id in streams
      modifies repr
      ensures Valid() && Mux.Found(old(View()), id)
      ensures View() == Mux.PutLive(old(View()), id, Mux.GetLive(old(View()), id).Deliver(data))
    {
      LiveView(id);
      var s := streams[id];
      s.Deliver(data);
      ReplacedLive(s);
      hide View, Valid;
    }

    method HandleStreamReset(f: Frame)
      requires Valid()
      modifies this`freeIDs, this`streams, this`resets, queue, repr
      ensures Valid() && View() == Mux.HandleReset(old(View()), f)
    {
      var id := f.streamID;
      LiveView(id);
      if id !in streams {
        return;
      }
      var s := streams[id];
      var code := Mux.ResetCode(f);
      Reset(s, code);
      LiveView(id);
      hide View, Valid;
      if id in streams {
        Remove(id);
      }
    }

    /** Stream 0 is the connection itself. */
    method HandleWindowUpdate(f: Frame)
      requires Valid()
      modifies repr, connSendWindow
      ensures Valid() && View() == Mux.HandleWindowUpdate(old(View()), f)
      ensures connSendWindow.View() == if f.streamID == 0 then Windows.Arrive(old(connSendWindow.View()), f.payload)
                                       else old(connSendWindow.View())
    {
      hide View, Valid;
      LiveView(f.streamID);
      if |f.payload| < 4 {
        return;
      }
      var increment := ToInt32(GetUint32(f.payload[..4]));
      if f.streamID == 0 {
        var _ := connSendWindow.Update(increment);
        return;
      }
      if f.streamID !in streams {
        return;
      }
      var s := streams[f.streamID];
      s.recvWindow := s.recvWindow + increment;
      ReplacedLive(s);
    }

    /** acceptPeerOpen: whether a peer's request to open is good. */
    method AcceptPeerOpen(id: UInt32) returns (ok: bool)
      requires Valid()
      modifies queue
      ensures Valid()
      ensures var m := old(View());
              && ok == (id !in m.t.live && !m.t.Owns(id))
              && View() == if id !in m.t.live && m.t.Owns(id)
                           then m.(control := m.control + [ResetFrame(id, RESET_CODE_PROTOCOL_ERROR)]) else m
    {
      LiveView(id);
      assert OwnsID(id) == View().t.Owns(id);
      hide View, Valid;
      if id in streams {
        ok := false;
      } else if OwnsID(id) {
        SendControl(ResetFrame(id, RESET_CODE_PROTOCOL_ERROR));
        ok := false;
      } else {
        ok := true;
      }
    }

    method Offer(s: StreamSession)
      requires Valid()
      modifies this`acceptCh
      ensures Valid() && View() == old(View()) && acceptCh == old(acceptCh) + [s]
    {
      hide Sessions, Indexed, Numbers;
      acceptCh := acceptCh + [s];
    }

    /** AcceptStream: the streams come out in the order in which they were opened. */
    method AcceptStream() returns (r: AcceptResult)
      requires Valid()
      modifies this`acceptCh
      ensures Valid() && View() == old(View())
      ensures r.Accepted? ==> [r.s] + acceptCh == old(acceptCh)
      ensures r.WouldWait? ==> old(acceptCh) == [] == acceptCh
    {
      hide Sessions, Indexed, Numbers;
      if acceptCh == [] {
        return WouldWait;
      }
      r := Accepted(acceptCh[0]);
      acceptCh := acceptCh[1..];
    }

    method HandleStreamOpen(f: Frame)
      requires Valid() && f.command == CMD_STREAM_OPEN
      modifies this`pendingOpen, this`streams, this`all, this`repr, this`installs, this`acceptCh, queue
      ensures Valid() && View() == Mux.Handle(old(View()), f)
      ensures if f.Opens() && f.streamID !in old(View()).t.live && !old(View()).t.Owns(f.streamID)
              then f.streamID in streams && acceptCh == old(acceptCh) + [streams[f.streamID]]
              else acceptCh == old(acceptCh)
    {
      hide View, Valid;
      if f.Ack() {
        CleanupPendingOpen(f.streamID);
        return;
      }
      var ok := AcceptPeerOpen(f.streamID);
      if !ok {
        return;
      }
      var s := Install(f.streamID, f.payload);
      SendData(AckFrame(f.streamID));
      Offer(s);
    }

    /** A list that arrives before the last one was taken is dropped. */
    method HandleServiceList(f: Frame)
      requires Valid()
      modifies this`serviceListCh
      ensures Valid() && View() == old(View())
      ensures serviceListCh == if old(serviceListCh).None? then Some(ServiceLists.Published(f.payload))
                               else old(serviceListCh)
    {
      hide Sessions, Indexed, Numbers;
      var services := ServiceLists.HandleServiceList(f.payload);
      if serviceListCh.None? {
        serviceListCh := Some(services);
      }
    }

    /** handleFrame, for any frame. */
    method HandleFrame(f: Frame)
      requires Valid()
      modifies this, queue, repr, connSendWindow
      ensures Valid() && View() == Mux.Handle(old(View()), f)
      ensures connSendWindow.View() ==
              if f.command == CMD_WINDOW_UPDATE && f.streamID == 0
              then Windows.Arrive(old(connSendWindow.View()), f.payload)
              else old(connSendWindow.View())
      ensures serviceListCh ==
              if f.command == CMD_SERVICE_LIST && old(serviceListCh).None? then Some(ServiceLists.Published(f.payload))
              else old(serviceListCh)
    {
      hide View, Valid;
      if f.command == CMD_STREAM_OPEN {
        HandleStreamOpen(f);
      } else if f.command == CMD_STREAM_DATA {
        HandleStreamData(f);
      } else if f.command == CMD_STREAM_CLOSE {
        HandleStreamClose(f.streamID);
      } else if f.command == CMD_STREAM_RESET {
        HandleStreamReset(f);
      } else if f.command == CMD_PING {
        SendControl(PongFrame(f.payload));
      } else if f.command == CMD_WINDOW_UPDATE {
        HandleWindowUpdate(f);
      } else if f.command == CMD_GO_AWAY {
        StopOpening();
      } else if f.command == CMD_SERVICE_LIST {
        HandleServiceList(f);
      }
    }

    /** The largest identifier in use, found by a loop over the table. */
    method LargestID() returns (lastID: UInt32)
      requires Valid()
      ensures Mux.IsLastID(View().t.live, lastID)
    {
      lastID := 0;
      var todo := streams.Keys;
      while todo != {}
        invariant todo <= streams.Keys
        invariant forall id :: id in streams && id !in todo ==> id <= lastID
        invariant lastID in streams || lastID == 0
        decreases todo
      {
        var id :| id in todo;
        if id > lastID {
          lastID := id;
        }
        todo := todo - {id};
      }
    }

    method StopOpening()
      requires Valid()
      modifies this`goingAway
      ensures Valid() && View() == old(View()).(t := old(View()).t.(goingAway := true))
    {
      hide Sessions, Indexed, Numbers;
      goingAway := true;
    }

    method GoAway(code: UInt32) returns (lastID: UInt32)
      requires Valid()
      modifies this`goingAway, queue
      ensures Valid() && Mux.IsLastID(old(View()).t.live, lastID)
      ensures View() == Mux.GoAway(old(View()), lastID, code)
    {
      hide View, Valid;
      StopOpening();
      lastID := LargestID();
      SendControl(Mux.GoAwayFrame(lastID, code));
    }

    /** flushAndFIN: every buffered chunk becomes a frame, then the closing frame. */
    method FlushAndFIN(s: StreamSession)
      requires Valid() && Knows(s)
      modifies queue, s`writeOut
      ensures Valid() && View() == Mux.Flush(old(View()), s.id, s.inc)
    {
      assert Listed(s.id, all[s.id]);
      ghost var chunks := s.writeOut;
      while s.writeOut != []
        invariant !queue.closed && queue.control == old(queue.control)
        invariant |s.writeOut| <= |chunks| && s.writeOut == chunks[|chunks| - |s.writeOut|..]
        invariant queue.data == old(queue.data) + DataFrames(s.id, chunks[..|chunks| - |s.writeOut|])
        decreases |s.writeOut|
      {
        ghost var k := |chunks| - |s.writeOut|;
        assert chunks[..k + 1] == chunks[..k] + [s.writeOut[0]];
        assert DataFrames(s.id, chunks[..k + 1]) == DataFrames(s.id, chunks[..k]) + [DataFrame(s.id, s.writeOut[0])];
        queue.Enqueue(DataFrame(s.id, s.writeOut[0]), PRIORITY_DATA);
        s.writeOut := s.writeOut[1..];
      }
      assert chunks[..|chunks|] == chunks;
      queue.Enqueue(CloseFrame(s.id), PRIORITY_DATA);
      OnlySession(s);
    }

    /** The data arm of the drain loop's `select`. */
    method DrainData(s: StreamSession)
      requires Valid() && Knows(s) && s.writeOut != []
      modifies queue, s`writeOut
      ensures Valid() && View() == Mux.DrainChunk(old(View()), s.id, s.inc)
    {
      assert Listed(s.id, all[s.id]);
      var data := s.writeOut[0];
      s.writeOut := s.writeOut[1..];
      queue.Enqueue(DataFrame(s.id, data), PRIORITY_DATA);
      OnlySession(s);
    }

    method TakeToken(s: StreamSession)
      requires Valid() && Knows(s) && s.finCh > 0
      modifies s`finCh
      ensures Valid()
      ensures var m := old(View());
              var was := m.t.Get(s.id, s.inc);
              was == old(s.View()) && View() == m.(t := m.t.Put(s.id, s.inc, was.(finCh := was.finCh - 1)))
    {
      assert Listed(s.id, all[s.id]);
      s.finCh := s.finCh - 1;
      OnlySession(s);
    }

    /** awaitFIN: with the token of Close there, flushes and ends; else it waits. */
    method AwaitFIN(s: StreamSession) returns (turn: Turn)
      requires Valid() && Knows(s)
      modifies queue, s`writeOut, s`finCh
      ensures Valid()
      ensures turn == if old(s.finCh) > 0 then Ended else Awaits
      ensures View() == if turn.Ended? then Mux.EndDrain(old(View()), s.id, s.inc) else old(View())
    {
      hide View, Valid;
      if s.finCh == 0 {
        return Awaits;
      }
      TakeToken(s);
      FlushAndFIN(s);
      turn := Ended;
    }

    /** One turn of drainStream, with the arm that its `select` has picked. */
    method DrainTurn(s: StreamSession, arm: Arm) returns (turn: Turn)
      requires Valid() && Knows(s) && Ready(s.View(), arm)
      modifies queue, s`writeOut, s`finCh
      ensures Valid()
      ensures turn.Continues? <==> arm.DataArm?
      ensures turn.Awaits? <==> arm.ClosedArm? && !old(s.state).Reset? && old(s.finCh) == 0
      ensures View() == if turn.Continues? then Mux.DrainChunk(old(View()), s.id, s.inc)
                        else if turn.Awaits? || (arm.ClosedArm? && old(s.state).Reset?) then old(View())
                        else Mux.EndDrain(old(View()), s.id, s.inc)
    {
      hide View, Valid;
      match arm {
        case DataArm =>
          DrainData(s);
          turn := Continues;
        case FinArm => turn := AwaitFIN(s);
        case ClosedArm =>
          if s.state.Reset? {
            return Ended;
          }
          turn := AwaitFIN(s);
      }
    }
  }

  /** The arms of the `select` in drainStream, without the end of the connection. */
  datatype Arm = DataArm | FinArm | ClosedArm

  predicate Ready(s: Session, arm: Arm) {
    match arm
    case DataArm => s.writeOut != []
    case FinArm => s.finCh > 0
    case ClosedArm => s.closedCh
  }

  datatype Turn = Continues | Ended | Awaits

  lemma NumbersCount(m: map<UInt32, StreamSession>)
    ensures |Numbers(m)| == |m|
  {
    assert |Numbers(m).Keys| == |m.Keys|;
  }
}
