/**
 * The broker-consuming pipeline of the chat backend (consumer.rs): for each
 * broker record, decode it, persist it, resolve the chat's members through a
 * one-second TTL cache, and try to enqueue the message for every member that
 * is registered; a full mailbox or a closed channel refuses it quietly. Any
 * per-record failure is logged and the stream goes on.
 *
 * The value-level specification (State, Step, Run) comes first; the class
 * Consumer at the end runs the same steps in place and is proved against it.
 */
module Pipeline {
  import opened Base
  import opened Connections

  /** Members fetched from storage stay usable for this many milliseconds. */
  const CacheTtl: int := 1000

  /** A cached membership snapshot of one chat and the time it was fetched. */
  datatype CacheEntry = CacheEntry(members: seq<UserId>, fetchedAt: int)

  /** The freshness test: strictly younger than the TTL. */
  predicate Fresh(e: CacheEntry, now: int)
  {
    now - e.fetchedAt < CacheTtl
  }

  /** What the broker stream yields: an error, or a record whose payload may be missing. */
  datatype RawRecord = ConsumerFault | Delivered(payload: Option<seq<bv8>>)

  /** The per-record errors that are logged and swallowed. */
  datatype Failure = ConsumerError | NoPayload | InvalidUtf8 | BadJson | InsertFailed | MembersFailed

  datatype Outcome = Done | Failed(failure: Failure)

  /**
   * The collaborators the pipeline calls, as total functions: UTF-8
   * validation, JSON decoding, whether the storage insert at a given time
   * succeeds, and the storage's answer to "members of chat c" at time t.
   */
  datatype Env = Env(
    utf8: seq<bv8> -> Option<string>,
    fromJson: string -> Option<PandaMessage>,
    insertOk: (PandaMessage, int) -> bool,
    membersOf: (ChatId, int) -> Option<seq<UserId>>)

  /** Extract the payload, check it is UTF-8, and parse it, reporting the first step that fails. */
  function Decode(rec: RawRecord, env: Env): (r: Result<PandaMessage, Failure>)
    ensures r.Ok? <==>
      && rec.Delivered? && rec.payload.Some?
      && env.utf8(rec.payload.value).Some?
      && env.fromJson(env.utf8(rec.payload.value).value).Some?
    ensures r.Ok? ==> r.value == env.fromJson(env.utf8(rec.payload.value).value).value
    ensures r.Err? ==> r.error != InsertFailed && r.error != MembersFailed
    ensures rec.ConsumerFault? ==> r == Err(ConsumerError)
    ensures rec.Delivered? && rec.payload.None? ==> r == Err(NoPayload)
    ensures rec.Delivered? && rec.payload.Some? && env.utf8(rec.payload.value).None? ==> r == Err(InvalidUtf8)
    ensures rec.Delivered? && rec.payload.Some? && env.utf8(rec.payload.value).Some? ==>
      (env.fromJson(env.utf8(rec.payload.value).value).None? <==> r == Err(BadJson))
  {
    match rec
    case ConsumerFault => Err(ConsumerError)
    case Delivered(payload) =>
      match payload
      case None => Err(NoPayload)
      case Some(bytes) =>
        match env.utf8(bytes)
        case None => Err(InvalidUtf8)
        case Some(text) =>
          match env.fromJson(text)
          case None => Err(BadJson)
          case Some(m) => Ok(m)
  }

  /** Every cached entry is what storage answered at the entry's fetch time. */
  predicate CacheFromSource(cache: map<ChatId, CacheEntry>, lookup: (ChatId, int) -> Option<seq<UserId>>)
  {
    forall c | c in cache :: lookup(c, cache[c].fetchedAt) == Some(cache[c].members)
  }

  /** The members to fan out to, when they were fetched, and the cache afterwards. */
  datatype Resolution = Resolution(members: seq<UserId>, fetchedAt: int, cache: map<ChatId, CacheEntry>)

  /**
   * Read-through cache lookup: a fresh entry is used as it is; a missing or
   * aged entry is fetched from storage and replaced wholesale; a failed
   * fetch leaves the cache alone and fails the record.
   */
  function Resolve(cache: map<ChatId, CacheEntry>, chat: ChatId, now: int,
                   lookup: (ChatId, int) -> Option<seq<UserId>>): (r: Option<Resolution>)
    ensures chat in cache && Fresh(cache[chat], now) ==>
      r == Some(Resolution(cache[chat].members, cache[chat].fetchedAt, cache))
    ensures !(chat in cache && Fresh(cache[chat], now)) ==>
      && (r.None? <==> lookup(chat, now).None?)
      && (r.Some? ==> r.value.members == lookup(chat, now).value && r.value.fetchedAt == now)
  {
    if chat in cache && Fresh(cache[chat], now) then
      Some(Resolution(cache[chat].members, cache[chat].fetchedAt, cache))
    else
      match lookup(chat, now)
      case None => None
      case Some(members) => Some(Resolution(members, now, cache[chat := CacheEntry(members, now)]))
  }

  /**
   * A successful resolution is less than one TTL old, and afterwards the
   * cache holds exactly it for the chat while every other chat keeps its
   * entry.
   */
  lemma ResolveTouchesOnlyItsChat(cache: map<ChatId, CacheEntry>, chat: ChatId, now: int,
                                  lookup: (ChatId, int) -> Option<seq<UserId>>)
    ensures var r := Resolve(cache, chat, now, lookup);
      r.Some? ==>
        && now - r.value.fetchedAt < CacheTtl
        && r.value.cache.Keys == cache.Keys + {chat}
        && r.value.cache[chat] == CacheEntry(r.value.members, r.value.fetchedAt)
        && (forall c | c in cache && c != chat :: r.value.cache[c] == cache[c])
  {
  }

  /**
   * When every cached entry is what storage answered at its fetch time, so
   * is every entry after a resolution, and the resolved members are what
   * storage answered at their fetch time.
   */
  lemma ResolveKeepsCacheFromSource(cache: map<ChatId, CacheEntry>, chat: ChatId, now: int,
                                    lookup: (ChatId, int) -> Option<seq<UserId>>)
    requires CacheFromSource(cache, lookup)
    ensures var r := Resolve(cache, chat, now, lookup);
      r.Some? ==>
        && CacheFromSource(r.value.cache, lookup)
        && lookup(chat, r.value.fetchedAt) == Some(r.value.members)
  {
  }

  /** The mailbox contents of every registered user, bounded by the capacity. */
  predicate BoxesBounded(boxes: map<UserId, seq<PandaMessage>>)
  {
    forall u | u in boxes :: |boxes[u]| <= MailboxCapacity
  }

  /**
   * The fanout loop: one enqueue attempt per entry of `members`, in order;
   * `closed` lists the registered users whose channel is closed. The set
   * of registered users never changes.
   */
  function Fanout(boxes: map<UserId, seq<PandaMessage>>, closed: set<UserId>, members: seq<UserId>, m: PandaMessage)
    : (r: map<UserId, seq<PandaMessage>>)
    ensures r.Keys == boxes.Keys
  {
    if members == [] then boxes
    else Attempt(Fanout(boxes, closed, members[..|members| - 1], m), closed, members[|members| - 1], m)
  }

  /**
   * The fanout never loses or reorders what was queued, leaves users
   * outside the member list and users whose channel is closed untouched,
   * and keeps the capacity bound.
   */
  lemma {:induction false} FanoutOnlyAppends(boxes: map<UserId, seq<PandaMessage>>, closed: set<UserId>,
                                             members: seq<UserId>, m: PandaMessage)
    ensures var r := Fanout(boxes, closed, members, m);
      && (forall u | u in boxes :: boxes[u] <= r[u])
      && (forall u | u in boxes && (u !in members || u in closed) :: r[u] == boxes[u])
      && (BoxesBounded(boxes) ==> BoxesBounded(r))
  {
    if members != [] {
      FanoutOnlyAppends(boxes, closed, members[..|members| - 1], m);
    }
  }

  /**
   * Closed form of the fanout: a registered user with an open channel
   * listed k times receives min(k, free room) copies of the message
   * appended after what was queued.
   */
  lemma {:induction false} FanoutAppendsPerListing(boxes: map<UserId, seq<PandaMessage>>, closed: set<UserId>,
                                                   members: seq<UserId>, m: PandaMessage, u: UserId)
    requires u in boxes && u !in closed && |boxes[u]| <= MailboxCapacity
    ensures Fanout(boxes, closed, members, m)[u]
         == boxes[u] + Repeat(m, Min(Count(members, u), MailboxCapacity - |boxes[u]|))
  {
    if members != [] {
      var prefix := members[..|members| - 1];
      var room := MailboxCapacity - |boxes[u]|;
      FanoutAppendsPerListing(boxes, closed, prefix, m, u);
      var c := Count(prefix, u);
      if members[|members| - 1] == u && c < room {
        assert Repeat(m, c + 1) == Repeat(m, c) + [m];
      }
    }
  }

  /**
   * A registered member with an open channel listed once (the sender
   * included) gets exactly one enqueue attempt: the message is appended if
   * the mailbox has room, and the mailbox is left as it was if it is full.
   */
  lemma ListedOnceGetsOneAttempt(boxes: map<UserId, seq<PandaMessage>>, closed: set<UserId>,
                                 members: seq<UserId>, m: PandaMessage, u: UserId)
    requires u in boxes && u !in closed && |boxes[u]| <= MailboxCapacity
    requires Count(members, u) == 1
    ensures |boxes[u]| < MailboxCapacity ==> Fanout(boxes, closed, members, m)[u] == boxes[u] + [m]
    ensures |boxes[u]| == MailboxCapacity ==> Fanout(boxes, closed, members, m)[u] == boxes[u]
  {
    FanoutAppendsPerListing(boxes, closed, members, m, u);
  }

  /**
   * The abstract state the pipeline acts on: storage, members cache,
   * mailboxes, the users whose channel is closed, processed counter.
   */
  datatype State = State(
    storage: seq<PandaMessage>,
    cache: map<ChatId, CacheEntry>,
    boxes: map<UserId, seq<PandaMessage>>,
    closed: set<UserId>,
    processed: nat)

  /** A closed channel is a registered one that buffers nothing. */
  predicate ClosedAreEmpty(boxes: map<UserId, seq<PandaMessage>>, closed: set<UserId>)
  {
    forall u | u in closed :: u in boxes && boxes[u] == []
  }

  /**
   * What every step preserves: mailbox bounds, closed channels stay empty,
   * and a cache that mirrors storage answers.
   */
  predicate Inv(s: State, env: Env)
  {
    BoxesBounded(s.boxes) && ClosedAreEmpty(s.boxes, s.closed) && CacheFromSource(s.cache, env.membersOf)
  }

  /**
   * One record, start to end: decode, then hand the message on. A record
   * that does not decode ends with its error and changes nothing.
   */
  function Step(s: State, rec: RawRecord, now: int, env: Env): (State, Outcome)
  {
    match Decode(rec, env)
    case Err(e) => (s, Failed(e))
    case Ok(m) => Accept(s, m, now, env)
  }

  /**
   * A decoded message: count it; persist it; resolve the chat's members;
   * fan out. The first failing stage ends the record with its error and
   * leaves every later stage's state untouched.
   */
  function Accept(s: State, m: PandaMessage, now: int, env: Env): (State, Outcome)
  {
    var counted := s.(processed := s.processed + 1);
    if !env.insertOk(m, now) then (counted, Failed(InsertFailed))
    else
      var stored := counted.(storage := s.storage + [m]);
      match Publish(stored, m, now, env.membersOf)
      case None => (stored, Failed(MembersFailed))
      case Some(published) => (published, Done)
  }

  /**
   * A stored message: resolve the chat's members through the cache and fan
   * out to them; None when the members cannot be fetched.
   */
  function Publish(s: State, m: PandaMessage, now: int, lookup: (ChatId, int) -> Option<seq<UserId>>): Option<State>
  {
    match Resolve(s.cache, m.chatId, now, lookup)
    case None => None
    case Some(res) => Some(s.(cache := res.cache, boxes := Fanout(s.boxes, s.closed, res.members, m)))
  }

  /** A record that does not decode (broker error, no payload, bad UTF-8, bad JSON) changes nothing at all. */
  lemma StepOnDecodeFailure(s: State, rec: RawRecord, now: int, env: Env)
    requires Decode(rec, env).Err?
    ensures Step(s, rec, now, env) == (s, Failed(Decode(rec, env).error))
    ensures Step(s, rec, now, env).1 != Failed(InsertFailed) && Step(s, rec, now, env).1 != Failed(MembersFailed)
  {
  }

  /** A record storage rejects is counted but not stored, and neither the cache nor any mailbox is touched. */
  lemma StepOnInsertFailure(s: State, rec: RawRecord, now: int, env: Env)
    requires Decode(rec, env).Ok? && !env.insertOk(Decode(rec, env).value, now)
    ensures Step(s, rec, now, env) == (s.(processed := s.processed + 1), Failed(InsertFailed))
  {
  }

  /**
   * Storage grows by exactly the decoded message when the record decodes and
   * the insert succeeds, and is unchanged otherwise; a record that fails
   * after decoding leaves the cache and the mailboxes alone.
   */
  lemma StepStorage(s: State, rec: RawRecord, now: int, env: Env)
    ensures var r := Step(s, rec, now, env);
      && r.0.storage == (if Decode(rec, env).Ok? && env.insertOk(Decode(rec, env).value, now)
                         then s.storage + [Decode(rec, env).value] else s.storage)
      && r.0.processed == (if Decode(rec, env).Ok? then s.processed + 1 else s.processed)
      && (r.1 != Done ==> r.0.cache == s.cache && r.0.boxes == s.boxes)
  {
  }

  /**
   * Every step keeps the registered users and which of them are closed, the
   * mailbox bounds, empty closed channels, and a cache that mirrors storage.
   */
  lemma StepPreservesInv(s: State, rec: RawRecord, now: int, env: Env)
    requires Inv(s, env)
    ensures Inv(Step(s, rec, now, env).0, env)
    ensures Step(s, rec, now, env).0.boxes.Keys == s.boxes.Keys
    ensures Step(s, rec, now, env).0.closed == s.closed
  {
    var d := Decode(rec, env);
    if d.Ok? && env.insertOk(d.value, now) {
      var res := Resolve(s.cache, d.value.chatId, now, env.membersOf);
      ResolveKeepsCacheFromSource(s.cache, d.value.chatId, now, env.membersOf);
      if res.Some? {
        FanoutOnlyAppends(s.boxes, s.closed, res.value.members, d.value);
      }
    }
  }

  /**
   * Cache hit: with a fresh entry for the chat, the record fans out to the
   * cached members, the cache stays as it is, and the result does not
   * depend on the storage's membership answers at all (they are not asked).
   */
  lemma CacheHitUsesCachedMembers(s: State, rec: RawRecord, now: int, env: Env,
                                  otherLookup: (ChatId, int) -> Option<seq<UserId>>)
    requires Decode(rec, env).Ok? && env.insertOk(Decode(rec, env).value, now)
    requires var chat := Decode(rec, env).value.chatId; chat in s.cache && Fresh(s.cache[chat], now)
    ensures var m := Decode(rec, env).value;
      && Step(s, rec, now, env).1 == Done
      && Step(s, rec, now, env).0.cache == s.cache
      && Step(s, rec, now, env).0.boxes == Fanout(s.boxes, s.closed, s.cache[m.chatId].members, m)
      && Step(s, rec, now, env) == Step(s, rec, now, env.(membersOf := otherLookup))
  {
  }

  /**
   * Cache miss or aged entry: the members are fetched; on success the
   * chat's entry becomes exactly (fetched members, now), other chats keep
   * theirs, and the fetched members are the ones fanned out to; on failure
   * the record is persisted but nothing else changes.
   */
  lemma CacheMissRefetches(s: State, rec: RawRecord, now: int, env: Env)
    requires Decode(rec, env).Ok? && env.insertOk(Decode(rec, env).value, now)
    requires var chat := Decode(rec, env).value.chatId; !(chat in s.cache && Fresh(s.cache[chat], now))
    ensures var m := Decode(rec, env).value;
      var r := Step(s, rec, now, env);
      match env.membersOf(m.chatId, now)
      case None =>
        r == (s.(storage := s.storage + [m], processed := s.processed + 1), Failed(MembersFailed))
      case Some(fetched) =>
        && r.1 == Done
        && r.0.cache == s.cache[m.chatId := CacheEntry(fetched, now)]
        && r.0.boxes == Fanout(s.boxes, s.closed, fetched, m)
  {
  }

  /**
   * The members a record is fanned out to are what storage answered at a
   * time less than one TTL before the record was processed.
   */
  lemma FanoutMembersAtMostTtlStale(s: State, rec: RawRecord, now: int, env: Env)
    requires Inv(s, env)
    requires Decode(rec, env).Ok? && env.insertOk(Decode(rec, env).value, now)
    ensures var m := Decode(rec, env).value;
      var res := Resolve(s.cache, m.chatId, now, env.membersOf);
      res.Some? ==>
        && now - res.value.fetchedAt < CacheTtl
        && env.membersOf(m.chatId, res.value.fetchedAt) == Some(res.value.members)
        && Step(s, rec, now, env).0.boxes == Fanout(s.boxes, s.closed, res.value.members, m)
  {
    var m := Decode(rec, env).value;
    ResolveTouchesOnlyItsChat(s.cache, m.chatId, now, env.membersOf);
    ResolveKeepsCacheFromSource(s.cache, m.chatId, now, env.membersOf);
  }

  /**
   * A chat with members A, B and S, where S posts "hi" and the members are
   * not cached: the message is stored; A and S, who are connected and have
   * room, each find it appended to their mailbox; B, who is not connected,
   * gets nothing, and the record still completes without error.
   */
  lemma {:induction false} ThreeMemberChat(s: State, rec: RawRecord, now: int, env: Env,
                                           chat: ChatId, a: UserId, b: UserId, sender: UserId)
    requires Decode(rec, env) == Ok(PandaMessage(chat, sender, "hi"))
    requires env.insertOk(PandaMessage(chat, sender, "hi"), now)
    requires chat !in s.cache && env.membersOf(chat, now) == Some([a, b, sender])
    requires a != b && b != sender && a != sender
    requires a in s.boxes && a !in s.closed && |s.boxes[a]| < MailboxCapacity
    requires sender in s.boxes && sender !in s.closed && |s.boxes[sender]| < MailboxCapacity
    requires b !in s.boxes
    ensures var m := PandaMessage(chat, sender, "hi");
      var r := Step(s, rec, now, env);
      && r.1 == Done
      && r.0.storage == s.storage + [m]
      && r.0.boxes[a] == s.boxes[a] + [m]
      && r.0.boxes[sender] == s.boxes[sender] + [m]
      && b !in r.0.boxes
  {
    var members := [a, b, sender];
    assert members[..2] == [a, b] && [a, b][..1] == [a] && [a][..0] == [];
    assert Count(members, a) == 1 && Count(members, sender) == 1;
    ListedOnceGetsOneAttempt(s.boxes, s.closed, members, PandaMessage(chat, sender, "hi"), a);
    ListedOnceGetsOneAttempt(s.boxes, s.closed, members, PandaMessage(chat, sender, "hi"), sender);
  }

  /** A broker record together with the clock reading when it is processed. */
  datatype Arrival = Arrival(record: RawRecord, at: int)

  /** The stream, processed one record after the other; failures never stop it. */
  function Run(s: State, arrivals: seq<Arrival>, env: Env): State
  {
    if arrivals == [] then s
    else
      var last := arrivals[|arrivals| - 1];
      Step(Run(s, arrivals[..|arrivals| - 1], env), last.record, last.at, env).0
  }

  /** The outcome logged for each record of the stream, in order. */
  function Outcomes(s: State, arrivals: seq<Arrival>, env: Env): (log: seq<Outcome>)
    ensures |log| == |arrivals|
  {
    if arrivals == [] then []
    else
      var init, last := arrivals[..|arrivals| - 1], arrivals[|arrivals| - 1];
      Outcomes(s, init, env) + [Step(Run(s, init, env), last.record, last.at, env).1]
  }

  /** Each record's logged outcome is what its step reports in the state the records before it left behind. */
  lemma {:induction false} OutcomesAreStepOutcomes(s: State, arrivals: seq<Arrival>, env: Env)
    ensures forall i | 0 <= i < |arrivals| ::
      Outcomes(s, arrivals, env)[i] == Step(Run(s, arrivals[..i], env), arrivals[i].record, arrivals[i].at, env).1
  {
    if arrivals != [] {
      var init := arrivals[..|arrivals| - 1];
      var log := Outcomes(s, arrivals, env);
      OutcomesAreStepOutcomes(s, init, env);
      forall i | 0 <= i < |arrivals|
        ensures log[i] == Step(Run(s, arrivals[..i], env), arrivals[i].record, arrivals[i].at, env).1
      {
        if i < |init| {
          assert log[i] == Outcomes(s, init, env)[i];
          assert init[..i] == arrivals[..i] && init[i] == arrivals[i];
        } else {
          assert arrivals[..i] == init;
        }
      }
    }
  }

  /** Whether a record on its own decodes and is accepted by storage. */
  predicate Storable(a: Arrival, env: Env)
  {
    Decode(a.record, env).Ok? && env.insertOk(Decode(a.record, env).value, a.at)
  }

  /** The messages of the storable records, in stream order. */
  function Persisted(arrivals: seq<Arrival>, env: Env): seq<PandaMessage>
  {
    if arrivals == [] then []
    else
      var last := arrivals[|arrivals| - 1];
      Persisted(arrivals[..|arrivals| - 1], env)
        + (if Storable(last, env) then [Decode(last.record, env).value] else [])
  }

  /**
   * Fault isolation: after a stream, storage holds exactly the messages of
   * the records that are storable on their own, in order, whatever failed
   * before or between them.
   */
  lemma {:induction false} RunPersistsEveryStorableRecord(s: State, arrivals: seq<Arrival>, env: Env)
    ensures Run(s, arrivals, env).storage == s.storage + Persisted(arrivals, env)
  {
    if arrivals != [] {
      var last := arrivals[|arrivals| - 1];
      RunPersistsEveryStorableRecord(s, arrivals[..|arrivals| - 1], env);
      StepStorage(Run(s, arrivals[..|arrivals| - 1], env), last.record, last.at, env);
    }
  }

  /** The number of records that decode. */
  function Decodable(arrivals: seq<Arrival>, env: Env): nat
  {
    if arrivals == [] then 0
    else
      Decodable(arrivals[..|arrivals| - 1], env)
        + (if Decode(arrivals[|arrivals| - 1].record, env).Ok? then 1 else 0)
  }

  /** The processed counter goes up once for every record that decodes, including those storage then rejects. */
  lemma {:induction false} RunCountsDecodedRecords(s: State, arrivals: seq<Arrival>, env: Env)
    ensures Run(s, arrivals, env).processed == s.processed + Decodable(arrivals, env)
  {
    if arrivals != [] {
      var last := arrivals[|arrivals| - 1];
      RunCountsDecodedRecords(s, arrivals[..|arrivals| - 1], env);
      StepStorage(Run(s, arrivals[..|arrivals| - 1], env), last.record, last.at, env);
    }
  }

  /** Over a whole stream the registered users stay the same, mailboxes stay bounded, and the cache keeps mirroring storage. */
  lemma {:induction false} RunPreservesInv(s: State, arrivals: seq<Arrival>, env: Env)
    requires Inv(s, env)
    ensures Inv(Run(s, arrivals, env), env)
    ensures Run(s, arrivals, env).boxes.Keys == s.boxes.Keys
    ensures Run(s, arrivals, env).closed == s.closed
  {
    if arrivals != [] {
      var last := arrivals[|arrivals| - 1];
      RunPreservesInv(s, arrivals[..|arrivals| - 1], env);
      StepPreservesInv(Run(s, arrivals[..|arrivals| - 1], env), last.record, last.at, env);
    }
  }

  /**
   * The pipeline state kept in place: the storage's messages, the members
   * cache created when consumption starts, a processed counter, and the
   * connection registry shared with the websocket sessions.
   */
  class Consumer {
    var storage: seq<PandaMessage>
    var cache: map<ChatId, CacheEntry>
    ghost var processed: nat
    const registry: Registry

    ghost function Abs(): State
      reads this, registry, registry.conns.Values
    {
      State(storage, cache, registry.Boxes(), registry.Closed(), processed)
    }

    constructor (registry: Registry)
      ensures this.registry == registry
      ensures storage == [] && cache == map[] && processed == 0
    {
      this.registry := registry;
      storage := [];
      cache := map[];
      processed := 0;
    }

    /** The read-through cache, updated in place. */
    method ResolveMembers(chat: ChatId, now: int, lookup: (ChatId, int) -> Option<seq<UserId>>)
      returns (members: Option<seq<UserId>>)
      modifies this`cache
      ensures var res := Resolve(old(cache), chat, now, lookup);
        && (res.None? ==> members.None? && cache == old(cache))
        && (res.Some? ==> members == Some(res.value.members) && cache == res.value.cache)
    {
      members := None;
      if chat in cache {
        var entry := cache[chat];
        if now - entry.fetchedAt < CacheTtl {
          members := Some(entry.members);
        }
      }
      if members.None? {
        var fetched := lookup(chat, now);
        if fetched.None? {
          return;
        }
        cache := cache[chat := CacheEntry(fetched.value, now)];
        members := fetched;
      }
    }

    /** The fanout loop: try_send into the mailbox of every listed member that is registered. */
    method FanoutTo(members: seq<UserId>, m: PandaMessage)
      requires registry.Valid()
      modifies registry.conns.Values
      ensures registry.Valid()
      ensures registry.Boxes() == Fanout(old(registry.Boxes()), old(registry.Closed()), members, m)
      ensures registry.Closed() == old(registry.Closed())
    {
      ghost var before, closed := registry.Boxes(), registry.Closed();
      for i := 0 to |members|
        invariant registry.Valid()
        invariant registry.Boxes() == Fanout(before, closed, members[..i], m)
        invariant registry.Closed() == closed
      {
        assert members[..i + 1][..i] == members[..i];
        var _ := registry.TryDeliver(members[i], m);
      }
      assert members[..|members|] == members;
    }

    /** After a message is stored: resolve the chat's members through the cache and fan out to them. */
    method Broadcast(m: PandaMessage, now: int, lookup: (ChatId, int) -> Option<seq<UserId>>) returns (ok: bool)
      requires registry.Valid()
      modifies this`cache, registry.conns.Values
      ensures registry.Valid() && registry.conns == old(registry.conns)
      ensures ok == Publish(old(Abs()), m, now, lookup).Some?
      ensures ok ==> var published := Publish(old(Abs()), m, now, lookup).value;
        cache == published.cache && registry.Boxes() == published.boxes
      ensures !ok ==> cache == old(cache) && registry.Boxes() == old(registry.Boxes())
      ensures registry.Closed() == old(registry.Closed())
    {
      ghost var boxes, closed := registry.Boxes(), registry.Closed();
      var members := ResolveMembers(m.chatId, now, lookup);
      assert registry.Boxes() == boxes && registry.Closed() == closed;
      ok := members.Some?;
      if ok {
        FanoutTo(members.value, m);
      }
    }

    /** One record: decode, persist, resolve members, fan out; the first failure is returned for logging. */
    method ProcessRecord(rec: RawRecord, now: int, env: Env) returns (outcome: Outcome)
      requires registry.Valid()
      modifies this, registry.conns.Values
      ensures registry.Valid() && registry.conns == old(registry.conns)
      ensures Abs() == Step(old(Abs()), rec, now, env).0
      ensures outcome == Step(old(Abs()), rec, now, env).1
    {
      var decoded := Decode(rec, env);
      if decoded.Err? {
        return Failed(decoded.error);
      }
      outcome := ProcessMessage(decoded.value, now, env);
    }

    /** A decoded message: count it, persist it, then broadcast it. */
    method ProcessMessage(m: PandaMessage, now: int, env: Env) returns (outcome: Outcome)
      requires registry.Valid()
      modifies this, registry.conns.Values
      ensures registry.Valid() && registry.conns == old(registry.conns)
      ensures Abs() == Accept(old(Abs()), m, now, env).0
      ensures outcome == Accept(old(Abs()), m, now, env).1
    {
      ghost var s0 := Abs();
      processed := processed + 1;
      if !env.insertOk(m, now) {
        return Failed(InsertFailed);
      }
      storage := storage + [m];
      ghost var stored := Abs();
      assert stored == s0.(processed := s0.processed + 1, storage := s0.storage + [m]);
      var ok := Broadcast(m, now, env.membersOf);
      assert Abs() == if ok then Publish(stored, m, now, env.membersOf).value else stored;
      outcome := if ok then Done else Failed(MembersFailed);
    }

    /** The stream loop: every record is processed, and each one's failure is logged and passed over. */
    method ConsumeAll(arrivals: seq<Arrival>, env: Env) returns (log: seq<Outcome>)
      requires registry.Valid()
      modifies this, registry.conns.Values
      ensures registry.Valid() && registry.conns == old(registry.conns)
      ensures Abs() == Run(old(Abs()), arrivals, env)
      ensures log == Outcomes(old(Abs()), arrivals, env)
    {
      ghost var start := Abs();
      log := [];
      for i := 0 to |arrivals|
        invariant registry.Valid() && registry.conns == old(registry.conns)
        invariant Abs() == Run(start, arrivals[..i], env)
        invariant log == Outcomes(start, arrivals[..i], env)
      {
        assert arrivals[..i + 1][..i] == arrivals[..i];
        var outcome := ProcessRecord(arrivals[i].record, arrivals[i].at, env);
        log := log + [outcome];
      }
      assert arrivals[..|arrivals|] == arrivals;
    }
  }
}
