/**
 * The live-connection side of the chat backend (websocket.rs): the per-user
 * bounded mailbox, the registry that maps a user to the mailbox of their
 * current connection, the socket reader loop and the loop that drains a
 * mailbox onto the socket.
 */
module Connections {
  import opened Base

  /** Every connection's mailbox is a bounded channel of this many messages. */
  const MailboxCapacity: nat := 128

  /** The value-level effect of one non-blocking enqueue: append when there is room, otherwise drop the newcomer. */
  function Deliver(q: seq<PandaMessage>, m: PandaMessage): seq<PandaMessage>
  {
    if |q| < MailboxCapacity then q + [m] else q
  }

  /**
   * One delivery attempt to user `v` at the level of mailbox contents:
   * skipped when `v` has no connection or when `v`'s channel is closed
   * (listed in `closed`).
   */
  function Attempt(boxes: map<UserId, seq<PandaMessage>>, closed: set<UserId>, v: UserId, m: PandaMessage)
    : map<UserId, seq<PandaMessage>>
  {
    if v in boxes && v !in closed then boxes[v := Deliver(boxes[v], m)] else boxes
  }

  /**
   * A bounded FIFO channel whose sender sits in the registry and whose
   * receiver belongs to one connection's send task. When that task ends,
   * the receiver is dropped: the channel is closed and whatever was still
   * buffered is discarded.
   */
  class Mailbox {
    var items: seq<PandaMessage>
    var closed: bool

    /** Within the bound; a closed channel buffers nothing. */
    ghost predicate Valid()
      reads this
    {
      |items| <= MailboxCapacity && (closed ==> items == [])
    }

    /** A fresh channel is open and holds nothing. */
    constructor ()
      ensures Valid() && items == [] && !closed
    {
      items := [];
      closed := false;
    }

    /** Non-blocking enqueue: never waits and never fails loudly; a full or closed mailbox keeps its contents. */
    method TrySend(m: PandaMessage) returns (ok: bool)
      requires Valid()
      modifies this`items
      ensures Valid()
      ensures ok <==> !old(closed) && |old(items)| < MailboxCapacity
      ensures ok ==> items == old(items) + [m]
      ensures !ok ==> items == old(items)
    {
      ok := !closed && |items| < MailboxCapacity;
      if ok {
        items := items + [m];
      }
    }

    /** The receiver is dropped: the channel closes and its buffer is discarded. */
    method Close()
      modifies this
      ensures Valid() && closed && items == []
    {
      closed := true;
      items := [];
    }

    /** Takes the oldest queued message, if any. */
    method Recv() returns (r: Option<PandaMessage>)
      requires Valid()
      modifies this`items
      ensures Valid()
      ensures old(items) == [] ==> r == None && items == []
      ensures old(items) != [] ==> r == Some(old(items)[0]) && items == old(items)[1..]
    {
      if items == [] {
        r := None;
      } else {
        r := Some(items[0]);
        items := items[1..];
      }
    }
  }

  /** The process-wide map from a user to the mailbox of that user's latest connection. */
  class Registry {
    var conns: map<UserId, Mailbox>

    /** Each registered mailbox is within its bound, and no two users share one. */
    ghost predicate Valid()
      reads this, conns.Values
    {
      && (forall u | u in conns :: conns[u].Valid())
      && (forall u, v | u in conns && v in conns && u != v :: conns[u] != conns[v])
    }

    /** What each registered user's mailbox currently holds. */
    ghost function Boxes(): (b: map<UserId, seq<PandaMessage>>)
      reads this, conns.Values
      ensures b.Keys == conns.Keys
    {
      map u | u in conns :: conns[u].items
    }

    /** The registered users whose channel is closed. */
    ghost function Closed(): (c: set<UserId>)
      reads this, conns.Values
      ensures c <= conns.Keys
    {
      set u | u in conns && conns[u].closed
    }

    constructor ()
      ensures Valid() && conns == map[]
    {
      conns := map[];
    }

    /** A new connection: a fresh, empty mailbox replaces whatever the user had before. */
    method Connect(user: UserId) returns (box: Mailbox)
      requires Valid()
      modifies this
      ensures Valid()
      ensures fresh(box) && box.items == [] && !box.closed
      ensures conns == old(conns)[user := box]
    {
      box := new Mailbox();
      conns := conns[user := box];
    }

    /**
     * Best-effort delivery to one user: a non-blocking enqueue into the
     * user's mailbox if there is one. An absent user, a closed channel or a
     * full mailbox is a quiet miss; the map itself is never changed.
     */
    method TryDeliver(user: UserId, m: PandaMessage) returns (delivered: bool)
      requires Valid()
      modifies conns.Values
      ensures Valid()
      ensures delivered <==> user in conns && !old(conns[user].closed) && |old(conns[user].items)| < MailboxCapacity
      ensures Boxes() == Attempt(old(Boxes()), old(Closed()), user, m)
      ensures Closed() == old(Closed())
    {
      delivered := false;
      if user in conns {
        var box := conns[user];
        delivered := box.TrySend(m);
        forall u | u in conns && u != user
          ensures conns[u].items == old(conns[u].items) && conns[u].closed == old(conns[u].closed)
        {
          assert conns[u] != box;
        }
      }
    }

    /** The end of a connection: the user's entry goes, whichever connection installed it. */
    method Disconnect(user: UserId)
      requires Valid()
      modifies this
      ensures Valid()
      ensures conns == old(conns) - {user}
    {
      conns := conns - {user};
    }
  }

  /** Frames a client can send on the websocket. */
  datatype WsFrame = Text(text: string) | Binary(data: seq<bv8>) | Ping | Pong | Close

  /** One result of polling the socket's read half; the end of the sequence is the end of the stream. */
  datatype Incoming = Received(frame: WsFrame) | ReceiveError

  predicate EndsSession(x: Incoming)
  {
    x.ReceiveError? || x.frame.Close?
  }

  /**
   * The reader loop: frames are read and ignored until a Close frame, a
   * receive error or the end of the stream. Returns the index of the item
   * that ended it (or the stream length).
   */
  method ReadUntilClosed(incoming: seq<Incoming>) returns (stop: nat)
    ensures stop <= |incoming|
    ensures forall i | 0 <= i < stop :: !EndsSession(incoming[i])
    ensures stop < |incoming| ==> EndsSession(incoming[stop])
  {
    stop := 0;
    while stop < |incoming|
      invariant stop <= |incoming|
      invariant forall i | 0 <= i < stop :: !EndsSession(incoming[i])
    {
      match incoming[stop]
      case ReceiveError =>
        break;
      case Received(frame) =>
        if frame.Close? {
          break;
        }
      stop := stop + 1;
    }
  }

  /**
   * One websocket session, run sequentially: register a mailbox, read until
   * the client goes away, abort the send task (which drops the receiver and
   * so closes the mailbox), deregister. The mailbox's drain runs beside the
   * reader (SendTask).
   */
  method HandleSocket(registry: Registry, user: UserId, incoming: seq<Incoming>) returns (box: Mailbox, stop: nat)
    requires registry.Valid()
    modifies registry
    ensures registry.Valid()
    ensures fresh(box) && box.closed && box.items == []
    ensures registry.conns == old(registry.conns) - {user}
    ensures stop <= |incoming|
    ensures forall i | 0 <= i < stop :: !EndsSession(incoming[i])
    ensures stop < |incoming| ==> EndsSession(incoming[stop])
  {
    box := registry.Connect(user);
    stop := ReadUntilClosed(incoming);
    box.Close();
    registry.Disconnect(user);
  }

  /**
   * Two sessions of one user overlapping: the second connection replaces the
   * first one's mailbox, and the first session's disconnect then removes the
   * second session's entry as well.
   */
  method ReconnectThenStaleDisconnect(registry: Registry, user: UserId) returns (first: Mailbox, second: Mailbox)
    requires registry.Valid()
    modifies registry
    ensures registry.Valid()
    ensures fresh(first) && fresh(second) && first != second
    ensures registry.conns == old(registry.conns) - {user}
  {
    first := registry.Connect(user);
    second := registry.Connect(user);
    assert registry.conns[user] == second;
    registry.Disconnect(user);
  }

  /** What a drain of a mailbox achieves: texts written to the socket, items taken off the mailbox, and whether a write failed. */
  datatype Drained = Drained(sent: seq<string>, consumed: nat, broken: bool)

  /**
   * The drain loop over the queued items, in order: an item that does not
   * serialize is skipped; a serialized item is written, and the first failed
   * write ends the loop. `sendOk(k)` is the outcome of the k-th write.
   */
  function DrainFrom(items: seq<PandaMessage>, toJson: PandaMessage -> Option<string>,
                     sendOk: nat -> bool, attempt: nat): (d: Drained)
    ensures d.consumed <= |items|
    decreases |items|
  {
    if items == [] then Drained([], 0, false)
    else
      match toJson(items[0])
      case None =>
        var rest := DrainFrom(items[1..], toJson, sendOk, attempt);
        Drained(rest.sent, rest.consumed + 1, rest.broken)
      case Some(text) =>
        if sendOk(attempt) then
          var rest := DrainFrom(items[1..], toJson, sendOk, attempt + 1);
          Drained([text] + rest.sent, rest.consumed + 1, rest.broken)
        else
          Drained([], 1, true)
  }

  /** The texts of the items that serialize, in enqueue order: what a drain with no failed write forwards. */
  function Serialized(items: seq<PandaMessage>, toJson: PandaMessage -> Option<string>): seq<string>
  {
    if items == [] then []
    else
      (match toJson(items[0]) case None => [] case Some(text) => [text]) + Serialized(items[1..], toJson)
  }

  lemma {:induction false} SerializedAppend(a: seq<PandaMessage>, b: seq<PandaMessage>, toJson: PandaMessage -> Option<string>)
    ensures Serialized(a + b, toJson) == Serialized(a, toJson) + Serialized(b, toJson)
  {
    if a == [] {
      assert a + b == b;
    } else {
      assert (a + b)[1..] == a[1..] + b;
      SerializedAppend(a[1..], b, toJson);
    }
  }

  /** Every write the drain made succeeded, and when it stopped broken it was on a failed write. */
  lemma {:induction false} DrainWritesUntilFirstFailure(items: seq<PandaMessage>, toJson: PandaMessage -> Option<string>,
                                                        sendOk: nat -> bool, attempt: nat)
    ensures var d := DrainFrom(items, toJson, sendOk, attempt);
      && (forall k | attempt <= k < attempt + |d.sent| :: sendOk(k))
      && (d.broken ==> !sendOk(attempt + |d.sent|))
    decreases |items|
  {
    if items != [] && toJson(items[0]).Some? && sendOk(attempt) {
      DrainWritesUntilFirstFailure(items[1..], toJson, sendOk, attempt + 1);
    } else if items != [] && toJson(items[0]).None? {
      DrainWritesUntilFirstFailure(items[1..], toJson, sendOk, attempt);
    }
  }

  /** Without a failed write the drain empties the mailbox and forwards every serializable item in enqueue order. */
  lemma {:induction false} DrainWithoutFailureForwardsAll(items: seq<PandaMessage>, toJson: PandaMessage -> Option<string>,
                                                          sendOk: nat -> bool, attempt: nat)
    ensures var d := DrainFrom(items, toJson, sendOk, attempt);
      !d.broken ==> d.consumed == |items| && d.sent == Serialized(items, toJson)
    decreases |items|
  {
    if items != [] && toJson(items[0]).Some? && sendOk(attempt) {
      DrainWithoutFailureForwardsAll(items[1..], toJson, sendOk, attempt + 1);
    } else if items != [] && toJson(items[0]).None? {
      DrainWithoutFailureForwardsAll(items[1..], toJson, sendOk, attempt);
    }
  }

  /**
   * A drain that stops on a failed write has forwarded, in enqueue order,
   * exactly the serializable items before the one whose write failed; that
   * item serialized, and nothing after it was taken off the mailbox.
   */
  lemma {:induction false} DrainStopsAtFailedWrite(items: seq<PandaMessage>, toJson: PandaMessage -> Option<string>,
                                                   sendOk: nat -> bool, attempt: nat)
    ensures var d := DrainFrom(items, toJson, sendOk, attempt);
      d.broken ==>
        && 0 < d.consumed
        && d.sent == Serialized(items[..d.consumed - 1], toJson)
        && toJson(items[d.consumed - 1]).Some?
    decreases |items|
  {
    if items != [] {
      var d := DrainFrom(items, toJson, sendOk, attempt);
      var next := if toJson(items[0]).Some? then attempt + 1 else attempt;
      if toJson(items[0]).Some? && !sendOk(attempt) {
        assert items[..d.consumed - 1] == [];
      } else {
        DrainStopsAtFailedWrite(items[1..], toJson, sendOk, next);
        var rest := DrainFrom(items[1..], toJson, sendOk, next);
        if rest.broken {
          assert items[..d.consumed - 1] == [items[0]] + items[1..][..rest.consumed - 1];
          SerializedAppend([items[0]], items[1..][..rest.consumed - 1], toJson);
          assert items[1..][rest.consumed - 1] == items[d.consumed - 1];
        }
      }
    }
  }

  /** One step of the drain: how the result over `items` follows from the result over the items after the first. */
  lemma DrainFromFirst(items: seq<PandaMessage>, toJson: PandaMessage -> Option<string>, sendOk: nat -> bool, attempt: nat)
    requires items != []
    ensures var d := DrainFrom(items, toJson, sendOk, attempt);
      match toJson(items[0])
      case None =>
        var r := DrainFrom(items[1..], toJson, sendOk, attempt);
        d == Drained(r.sent, r.consumed + 1, r.broken)
      case Some(text) =>
        if sendOk(attempt) then
          var r := DrainFrom(items[1..], toJson, sendOk, attempt + 1);
          d == Drained([text] + r.sent, r.consumed + 1, r.broken)
        else
          d == Drained([], 1, true)
  {
  }

  /**
   * The connection's send task, run over what is queued now: receive
   * queued items in order, serialize each, write it to the socket, and stop
   * at the first failed write. The task then ends and drops its receiver:
   * the channel is closed and the items after the failing one are
   * discarded. Without a failed write the mailbox is emptied and stays open
   * for the messages that come later. Only an open channel has a receiver.
   */
  method SendTask(box: Mailbox, toJson: PandaMessage -> Option<string>, sendOk: nat -> bool)
    returns (sent: seq<string>, broken: bool)
    requires box.Valid() && !box.closed
    modifies box
    ensures box.Valid()
    ensures var d := DrainFrom(old(box.items), toJson, sendOk, 0);
      && sent == d.sent
      && broken == d.broken
      && box.closed == d.broken
      && box.items == []
  {
    sent, broken := ForwardQueued(box, toJson, sendOk);
    if broken {
      box.Close();
    }
  }

  /**
   * A write that fails closes the channel for good: the task's exit drops
   * what was still queued, and a later enqueue is refused however much room
   * there is.
   */
  method FailedWriteClosesMailbox(box: Mailbox, toJson: PandaMessage -> Option<string>, m: PandaMessage)
    returns (accepted: bool)
    requires box.Valid() && !box.closed
    requires box.items != [] && toJson(box.items[0]).Some?
    modifies box
    ensures box.closed && box.items == [] && !accepted
  {
    var sent, broken := SendTask(box, toJson, k => false);
    accepted := box.TrySend(m);
  }

  /** The receive loop of the send task: it takes off the items `DrainFrom` consumes and no more. */
  method ForwardQueued(box: Mailbox, toJson: PandaMessage -> Option<string>, sendOk: nat -> bool)
    returns (sent: seq<string>, broken: bool)
    requires box.Valid()
    modifies box`items
    ensures box.Valid()
    ensures var d := DrainFrom(old(box.items), toJson, sendOk, 0);
      && sent == d.sent
      && broken == d.broken
      && box.items == old(box.items)[d.consumed..]
      && (!broken ==> box.items == [])
  {
    sent, broken := [], false;
    var attempt: nat := 0;
    ghost var all := box.items;
    ghost var k: nat := 0;
    while true
      invariant box.Valid()
      invariant k <= |all| && box.items == all[k..]
      invariant var d, r := DrainFrom(all, toJson, sendOk, 0), DrainFrom(box.items, toJson, sendOk, attempt);
        d.sent == sent + r.sent && d.consumed == k + r.consumed && d.broken == r.broken
      decreases |box.items|
    {
      ghost var queued := box.items;
      var next := box.Recv();
      if next.None? {
        break;
      }
      DrainFromFirst(queued, toJson, sendOk, attempt);
      k := k + 1;
      assert all[k - 1..][1..] == all[k..];
      var json := toJson(next.value);
      if json.Some? {
        if !sendOk(attempt) {
          broken := true;
          break;
        }
        sent := sent + [json.value];
        attempt := attempt + 1;
      }
    }
  }
}
