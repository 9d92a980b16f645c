/**
 * The presence tracker (UserPresence.py): clients send heartbeats over a
 * websocket; the tracker keeps, per user id, the time of the last heartbeat
 * and whether that user's connection is still open, and classifies users as
 * online, away or offline from that record and the current time.
 *
 * Time is whole microseconds on the server's naive local clock, counted from
 * 1970-01-01 00:00; `datetime.now()` becomes an instant carried by each event
 * or passed by the caller.
 */
module Presence {
  import opened Wrappers
  import opened Models

  type Instant = int

  /** `datetime(1970, 1, 1)`, the timestamp of a user never heard from. */
  const Epoch: Instant := 0

  /**
   * A connected user whose last heartbeat is MORE than this long ago is away:
   * `total_seconds() > 30` on a microsecond difference `d` is exactly
   * `d > 30_000_000`.
   */
  const AwayAfter: int := 30_000_000

  datatype HeartbeatRecord = HeartbeatRecord(userId: string, timestamp: Instant, connected: bool)

  /** `HeartbeatRecord.default_record(user_id)`: never heard from, not connected. */
  function DefaultRecord(userId: string): (r: HeartbeatRecord)
    ensures r.userId == userId && r.timestamp == Epoch && !r.connected
  {
    HeartbeatRecord(userId, Epoch, false)
  }

  /**
   * What `self.users[id]` yields: the stored record, or for an unknown id the
   * defaultdict's factory value, which is built with user id "" whatever id
   * was asked for.
   */
  function RecordOf(users: map<string, HeartbeatRecord>, id: string): HeartbeatRecord
  {
    if id in users then users[id] else DefaultRecord("")
  }

  /** The dictionary after `self.users[id]` has been read: a read inserts the default. */
  function AfterRead(users: map<string, HeartbeatRecord>, id: string): map<string, HeartbeatRecord>
  {
    if id in users then users else users[id := DefaultRecord("")]
  }

  /**
   * `get_user_status` once the record has been read: offline when not
   * connected, whatever the timestamp; away when connected but the last
   * heartbeat is more than 30 s before `now`; online otherwise. Only these
   * three of the five statuses are ever produced.
   */
  function Classify(r: HeartbeatRecord, now: Instant): (s: UserStatus)
    ensures s == Online || s == Away || s == Offline
    ensures s == Offline <==> !r.connected
    ensures s == Away <==> r.connected && now - r.timestamp > AwayAfter
  {
    if !r.connected then Offline
    else if now - r.timestamp > AwayAfter then Away
    else Online
  }

  /** A connected user stays online from the heartbeat up to exactly 30 s after it. */
  lemma OnlineWithinWindow(r: HeartbeatRecord, now: Instant)
    requires r.connected && now <= r.timestamp + AwayAfter
    ensures Classify(r, now) == Online
  {
  }

  /** Without a new record, an away user stays away as time goes on. */
  lemma AwayPersists(r: HeartbeatRecord, now: Instant, later: Instant)
    requires Classify(r, now) == Away && now <= later
    ensures Classify(r, later) == Away
  {
  }

  /** An unknown id reads as a default record: epoch timestamp, user id "", offline. */
  lemma UnknownUserReadsDefault(users: map<string, HeartbeatRecord>, id: string, now: Instant)
    requires id !in users
    ensures RecordOf(users, id).timestamp == Epoch
    ensures Classify(RecordOf(users, id), now) == Offline
    ensures var after := AfterRead(users, id);
      id in after && after[id].userId == "" && after - {id} == users
  {
    assert AfterRead(users, id) - {id} == users;
  }

  /** One thing the receive loop can get from the socket. */
  datatype Event =
    | Heartbeat(userId: string, at: Instant)  // a JSON object with a string `user_id`, received at `at`
    | Malformed                               // bad JSON, no `user_id`, or any other error
    | Closed                                  // the peer closed the connection

  ghost predicate AllHeartbeats(hs: seq<Event>)
  {
    forall i :: 0 <= i < |hs| ==> hs[i].Heartbeat?
  }

  /** The record written for a heartbeat: connected, stamped with its arrival time. */
  function AfterHeartbeat(users: map<string, HeartbeatRecord>, u: string, at: Instant): map<string, HeartbeatRecord>
  {
    users[u := HeartbeatRecord(u, at, true)]
  }

  /**
   * The close handler: if a heartbeat was processed on this connection, the
   * user id it carried becomes disconnected with its timestamp kept; if none
   * was, nothing changes.
   */
  function AfterClose(users: map<string, HeartbeatRecord>, last: Option<string>): map<string, HeartbeatRecord>
  {
    match last
    case None => users
    case Some(u) => users[u := HeartbeatRecord(u, RecordOf(users, u).timestamp, false)]
  }

  /**
   * The dictionary after one connection's receive loop has read `events`,
   * starting from `users`, where `last` is the user id of the latest heartbeat
   * already processed on this connection. The loop stops at the first
   * `Malformed` or `Closed`; what follows is never read.
   */
  function Replay(users: map<string, HeartbeatRecord>, last: Option<string>, events: seq<Event>): map<string, HeartbeatRecord>
    decreases |events|
  {
    if |events| == 0 then users
    else match events[0]
      case Heartbeat(u, at) => Replay(AfterHeartbeat(users, u, at), Some(u), events[1..])
      case Malformed => users
      case Closed => AfterClose(users, last)
  }

  /** The user id the loop remembers after processing the heartbeats `hs`. */
  function LastSender(last: Option<string>, hs: seq<Event>): Option<string>
    decreases |hs|
  {
    if |hs| == 0 then last
    else LastSender(if hs[0].Heartbeat? then Some(hs[0].userId) else last, hs[1..])
  }

  /** The time of the latest heartbeat from `id` among `hs`, if there is one. */
  function LatestBeat(hs: seq<Event>, id: string): Option<Instant>
    decreases |hs|
  {
    if |hs| == 0 then None
    else match LatestBeat(hs[1..], id)
      case Some(t) => Some(t)
      case None => if hs[0].Heartbeat? && hs[0].userId == id then Some(hs[0].at) else None
  }

  /** A run of heartbeats can be processed first and the rest of the stream after it. */
  lemma {:induction false} ReplayAfterHeartbeats(users: map<string, HeartbeatRecord>, last: Option<string>,
                                                 hs: seq<Event>, tail: seq<Event>)
    requires AllHeartbeats(hs)
    ensures Replay(users, last, hs + tail) == Replay(Replay(users, last, hs), LastSender(last, hs), tail)
    decreases |hs|
  {
    if |hs| > 0 {
      assert (hs + tail)[0] == hs[0];
      assert (hs + tail)[1..] == hs[1..] + tail;
      ReplayAfterHeartbeats(AfterHeartbeat(users, hs[0].userId, hs[0].at), Some(hs[0].userId), hs[1..], tail);
    } else {
      assert hs + tail == tail;
    }
  }

  /**
   * After a run of heartbeats, each user's record is connected and stamped
   * with that user's latest heartbeat; every user not heard from keeps
   * exactly the record (or absence of one) it had.
   */
  lemma {:induction false} ReplayHeartbeats(users: map<string, HeartbeatRecord>, last: Option<string>,
                                            hs: seq<Event>, id: string)
    requires AllHeartbeats(hs)
    ensures var r := Replay(users, last, hs);
      match LatestBeat(hs, id)
      case Some(t) => id in r && r[id] == HeartbeatRecord(id, t, true)
      case None => (id in r <==> id in users) && (id in users ==> r[id] == users[id])
    decreases |hs|
  {
    if |hs| > 0 {
      ReplayHeartbeats(AfterHeartbeat(users, hs[0].userId, hs[0].at), Some(hs[0].userId), hs[1..], id);
    }
  }

  /** The last sender of a non-empty run of heartbeats is the sender of its last one. */
  lemma {:induction false} LastSenderIsLast(last: Option<string>, hs: seq<Event>)
    requires AllHeartbeats(hs) && |hs| > 0
    ensures LastSender(last, hs) == Some(hs[|hs| - 1].userId)
    decreases |hs|
  {
    if |hs| > 1 {
      LastSenderIsLast(Some(hs[0].userId), hs[1..]);
    }
  }

  /** The latest heartbeat of the last sender is the last heartbeat of the run. */
  lemma {:induction false} LatestBeatOfLast(hs: seq<Event>)
    requires AllHeartbeats(hs) && |hs| > 0
    ensures LatestBeat(hs, hs[|hs| - 1].userId) == Some(hs[|hs| - 1].at)
    decreases |hs|
  {
    if |hs| > 1 {
      assert hs[1..][|hs| - 2] == hs[|hs| - 1];
      LatestBeatOfLast(hs[1..]);
    }
  }

  /**
   * Closing after at least one heartbeat disconnects the user of the last
   * heartbeat, keeping that heartbeat's time; every other record is as the
   * heartbeats left it, and nothing sent after the close is read.
   */
  lemma CloseAfterHeartbeats(users: map<string, HeartbeatRecord>, hs: seq<Event>, rest: seq<Event>)
    requires AllHeartbeats(hs) && |hs| > 0
    ensures var u := hs[|hs| - 1].userId;
      var beats := Replay(users, None, hs);
      var r := Replay(users, None, hs + [Closed] + rest);
      && u in r && r[u] == HeartbeatRecord(u, hs[|hs| - 1].at, false)
      && r - {u} == beats - {u}
  {
    var u := hs[|hs| - 1].userId;
    assert hs + [Closed] + rest == hs + ([Closed] + rest);
    ReplayAfterHeartbeats(users, None, hs, [Closed] + rest);
    LastSenderIsLast(None, hs);
    LatestBeatOfLast(hs);
    ReplayHeartbeats(users, None, hs, u);
  }

  /** Closing before any heartbeat has been processed changes nothing. */
  lemma CloseBeforeHeartbeat(users: map<string, HeartbeatRecord>, rest: seq<Event>)
    ensures Replay(users, None, [Closed] + rest) == users
  {
  }

  /**
   * A malformed message ends the loop without the close handler: the records
   * are exactly as the heartbeats before it left them, so the last sender is
   * still marked connected.
   */
  lemma MalformedKeepsConnected(users: map<string, HeartbeatRecord>, hs: seq<Event>, rest: seq<Event>)
    requires AllHeartbeats(hs) && |hs| > 0
    ensures var u := hs[|hs| - 1].userId;
      var r := Replay(users, None, hs + [Malformed] + rest);
      && r == Replay(users, None, hs)
      && u in r && r[u] == HeartbeatRecord(u, hs[|hs| - 1].at, true)
  {
    var u := hs[|hs| - 1].userId;
    assert hs + [Malformed] + rest == hs + ([Malformed] + rest);
    ReplayAfterHeartbeats(users, None, hs, [Malformed] + rest);
    LatestBeatOfLast(hs);
    ReplayHeartbeats(users, None, hs, u);
  }

  /**
   * Consequence for status: a user whose connection died on a malformed
   * message is never reported offline; once 30 s have passed since the last
   * heartbeat, they read as away for good.
   */
  lemma MalformedUserReadsAway(users: map<string, HeartbeatRecord>, hs: seq<Event>, rest: seq<Event>,
                               now: Instant)
    requires AllHeartbeats(hs) && |hs| > 0
    requires now - hs[|hs| - 1].at > AwayAfter
    ensures var u := hs[|hs| - 1].userId;
      Classify(RecordOf(Replay(users, None, hs + [Malformed] + rest), u), now) == Away
  {
    MalformedKeepsConnected(users, hs, rest);
  }

  /** A user whose connection was closed after their heartbeat reads offline at any time. */
  lemma ClosedUserReadsOffline(users: map<string, HeartbeatRecord>, hs: seq<Event>, rest: seq<Event>,
                               now: Instant)
    requires AllHeartbeats(hs) && |hs| > 0
    ensures var u := hs[|hs| - 1].userId;
      Classify(RecordOf(Replay(users, None, hs + [Closed] + rest), u), now) == Offline
  {
    CloseAfterHeartbeats(users, hs, rest);
  }

  /** The tracker: one heartbeat record per user id, shared by all connections. */
  class PresenceTracker {
    var users: map<string, HeartbeatRecord>

    /** A new tracker has heard from nobody. */
    constructor ()
      ensures users == map[]
    {
      users := map[];
    }

    /** `self.users[userId]`: reads the record, inserting the default for an unknown id. */
    method Lookup(userId: string) returns (r: HeartbeatRecord)
      modifies this
      ensures r == RecordOf(old(users), userId)
      ensures users == AfterRead(old(users), userId)
      ensures userId in users && users[userId] == r
    {
      if userId !in users {
        users := users[userId := DefaultRecord("")];
      }
      r := users[userId];
    }

    /**
     * `handle_connection`: processes one connection's messages in order until
     * the first malformed message or the close, and then runs the close
     * handler if the connection was closed.
     */
    method HandleConnection(events: seq<Event>)
      modifies this
      ensures users == Replay(old(users), None, events)
    {
      var i := 0;
      var last: Option<string> := None;
      while i < |events|
        invariant 0 <= i <= |events|
        invariant Replay(old(users), None, events) == Replay(users, last, events[i..])
        decreases |events| - i
      {
        assert events[i..][0] == events[i];
        assert events[i..][1..] == events[i + 1..];
        match events[i]
        case Heartbeat(u, at) =>
          users := users[u := HeartbeatRecord(u, at, true)];
          last := Some(u);
          i := i + 1;
        case Malformed =>
          return;
        case Closed =>
          if last.Some? {
            var u := last.value;
            ghost var before := users;
            var record := Lookup(u);
            users := users[u := HeartbeatRecord(u, record.timestamp, false)];
            assert users == AfterClose(before, last);
          }
          return;
      }
    }

    /** `get_last_heartbeat`: the last heartbeat time, the epoch for an unknown id. */
    method GetLastHeartbeat(userId: string) returns (t: Instant)
      modifies this
      ensures t == RecordOf(old(users), userId).timestamp
      ensures users == AfterRead(old(users), userId)
    {
      var record := Lookup(userId);
      t := record.timestamp;
    }

    /** `get_user_status`: the classification of the user's record at `now`. */
    method GetUserStatus(userId: string, now: Instant) returns (s: UserStatus)
      modifies this
      ensures s == Classify(RecordOf(old(users), userId), now)
      ensures users == AfterRead(old(users), userId)
    {
      var record := Lookup(userId);
      if !record.connected {
        return Offline;
      }
      if now - record.timestamp > AwayAfter {
        return Away;
      }
      return Online;
    }
  }
}
