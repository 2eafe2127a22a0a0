/**
 * The WebSocket layer (backend/app/api/websocket.py): the set of open connections, the
 * broadcast that drops every client whose send fails, the per-client message loop, and the
 * two periodic broadcasts of system and MAVLink status.
 */
module WebSocket {
  import opened Wrappers
  import SystemMonitor
  import MavlinkRouter

  /** A client connection, by identity. */
  type Socket = nat

  /** What `websocket.receive_text()` delivered, once `json.loads` has looked at it. */
  datatype Incoming =
    | NotJson
      /** JSON, but not an object, so `message.get` raises. */
    | NotObject
      /** An object: its "type" when that is a string, and the JSON text of its "topics". */
    | Object(msgType: Option<string>, topics: Option<string>)

  /** What the handler sends back to its own client. */
  datatype Outgoing = Pong | Subscribed(topics: string)

  /** What the periodic tasks broadcast to everyone. */
  datatype ServerMessage =
    | SystemMessage(stats: SystemMonitor.StatsDict)
    | MavlinkMessage(status: MavlinkRouter.RouterStatus)

  /** How the handler treats one message: answer it, pass over it, or end the session. */
  datatype Step = Answer(reply: Outgoing) | Skip | Drop

  /** `topics` when the client sent none. */
  const NO_TOPICS := "[]"

  /** The dispatch on `message.get("type")`. */
  function StepOf(m: Incoming): (r: Step)
    ensures r == Drop <==> m == NotObject
    ensures r == Answer(Pong) <==> m.Object? && m.msgType == Some("ping")
    ensures r.Answer? && r.reply.Subscribed? <==> m.Object? && m.msgType == Some("subscribe")
    ensures r.Answer? && r.reply.Subscribed? ==> r.reply.topics == m.topics.GetOr(NO_TOPICS)
  {
    match m
    case NotJson => Skip
    case NotObject => Drop
    case Object(t, topics) =>
      if t == Some("ping") then Answer(Pong)
      else if t == Some("subscribe") then Answer(Subscribed(topics.GetOr(NO_TOPICS)))
      else Skip
  }

  /** The replies a client receives for the messages it sent, up to the first one that ends the session. */
  function Replies(inbox: seq<Incoming>): (r: seq<Outgoing>)
    ensures |r| <= |inbox|
  {
    if inbox == [] then []
    else match StepOf(inbox[0])
      case Drop => []
      case Skip => Replies(inbox[1..])
      case Answer(o) => [o] + Replies(inbox[1..])
  }

  /** Messages after one that is not an object are never answered. */
  lemma {:induction false} DropEndsSession(before: seq<Incoming>, after: seq<Incoming>)
    ensures Replies(before + [NotObject] + after) == Replies(before + [NotObject])
  {
    if before != [] {
      assert (before + [NotObject] + after)[1..] == before[1..] + [NotObject] + after;
      assert (before + [NotObject])[1..] == before[1..] + [NotObject];
      DropEndsSession(before[1..], after);
    }
  }

  /** Without such a message, the replies to two batches are the replies to each, in order. */
  lemma {:induction false} RepliesAppend(a: seq<Incoming>, b: seq<Incoming>)
    requires NotObject !in a
    ensures Replies(a + b) == Replies(a) + Replies(b)
  {
    if a != [] {
      assert a[0] in a && (a + b)[0] == a[0];
      assert (a + b)[1..] == a[1..] + b;
      assert forall x :: x in a[1..] ==> x in a;
      RepliesAppend(a[1..], b);
    } else {
      assert a + b == b;
    }
  }

  /** Every ping is answered with one pong, as long as the session lasts. */
  lemma PingsArePonged(n: nat)
    ensures Replies(seq(n, _ => Object(Some("ping"), None))) == seq(n, _ => Pong)
  {
    if n > 0 {
      var pings := seq(n, _ => Object(Some("ping"), None));
      assert pings[1..] == seq(n - 1, _ => Object(Some("ping"), None));
      PingsArePonged(n - 1);
      assert seq(n, _ => Pong) == [Pong] + seq(n - 1, _ => Pong);
    }
  }

  class ConnectionManager {
    var active: set<Socket>

    constructor ()
      ensures active == {}
    {
      active := {};
    }

    /** `connect`: the client is tracked from now on. */
    method Connect(ws: Socket)
      modifies this
      ensures active == old(active) + {ws}
    {
      active := active + {ws};
    }

    /** `disconnect` discards, so an unknown client and a second call change nothing. */
    method Disconnect(ws: Socket)
      modifies this
      ensures active == old(active) - {ws}
      ensures ws !in old(active) ==> active == old(active)
    {
      active := active - {ws};
    }

    /**
     * `broadcast`: the message goes to every client, those whose send raises are collected,
     * and afterwards exactly those are dropped.
     */
    method Broadcast(message: ServerMessage, sendFails: Socket -> bool) returns (delivered: set<Socket>)
      modifies this
      ensures delivered == set c | c in old(active) && !sendFails(c)
      ensures active == set c | c in old(active) && !sendFails(c)
      ensures old(active) == {} ==> delivered == {} && active == {}
    {
      delivered := {};
      if active == {} {
        return;
      }
      var connections := active;
      var pending := connections;
      var disconnected: set<Socket> := {};
      while pending != {}
        invariant pending <= connections
        invariant forall c :: c in delivered <==> c in connections && c !in pending && !sendFails(c)
        invariant forall c :: c in disconnected <==> c in connections && c !in pending && sendFails(c)
        decreases pending
      {
        var c :| c in pending;
        if sendFails(c) {
          disconnected := disconnected + {c};
        } else {
          delivered := delivered + {c};
        }
        pending := pending - {c};
      }
      var dropping := disconnected;
      while dropping != {}
        invariant dropping <= disconnected
        invariant active == connections - (disconnected - dropping)
        decreases dropping
      {
        var c :| c in dropping;
        Disconnect(c);
        dropping := dropping - {c};
      }
    }

    /**
     * `websocket_handler` for one client: tracked while it talks, answered message by message,
     * and dropped when it leaves or sends something that is not a JSON object.
     */
    method Serve(ws: Socket, inbox: seq<Incoming>) returns (replies: seq<Outgoing>)
      modifies this
      ensures replies == Replies(inbox)
      ensures active == old(active) - {ws}
    {
      Connect(ws);
      replies := [];
      var i := 0;
      while i < |inbox|
        invariant 0 <= i <= |inbox|
        invariant active == old(active) + {ws}
        invariant replies + Replies(inbox[i..]) == Replies(inbox)
      {
        assert inbox[i..][1..] == inbox[i + 1..];
        var step := StepOf(inbox[i]);
        if step.Drop? {
          break;
        } else if step.Answer? {
          replies := replies + [step.reply];
        }
        i := i + 1;
      }
      Disconnect(ws);
    }

    /** One round of `broadcast_system_stats`: the cached snapshot goes out only when it is not empty. */
    method BroadcastSystemStats(monitor: SystemMonitor.SystemMonitor, sendFails: Socket -> bool)
      returns (sent: Option<ServerMessage>, delivered: set<Socket>)
      modifies this
      ensures monitor.CurrentStats() == map[] ==> sent.None? && delivered == {} && active == old(active)
      ensures monitor.CurrentStats() != map[] ==>
                && sent == Some(SystemMessage(monitor.CurrentStats()))
                && delivered == set c | c in old(active) && !sendFails(c)
                && active == delivered
    {
      var stats := monitor.CurrentStats();
      if stats == map[] {
        return None, {};
      }
      sent := Some(SystemMessage(stats));
      delivered := Broadcast(sent.value, sendFails);
    }

    /** One round of `broadcast_mavlink_stats`: the router status goes out only while the router runs. */
    method BroadcastMavlinkStats(router: MavlinkRouter.MAVLinkRouter, sendFails: Socket -> bool)
      returns (sent: Option<ServerMessage>, delivered: set<Socket>)
      modifies this
      ensures !router.running ==> sent.None? && delivered == {} && active == old(active)
      ensures router.running ==>
                && sent == Some(MavlinkMessage(router.Status()))
                && delivered == set c | c in old(active) && !sendFails(c)
                && active == delivered
    {
      var status := router.Status();
      if !status.running {
        return None, {};
      }
      sent := Some(MavlinkMessage(status));
      delivered := Broadcast(sent.value, sendFails);
    }
  }
}
