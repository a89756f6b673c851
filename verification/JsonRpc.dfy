/** The outbound side and the framing of the JSON-RPC 2.0 peer (internal/acp/jsonrpc.go). */
module JsonRpc {
  import opened Basics

  // ---- pending calls ----

  /** What a call's channel carries: a response frame, or the error of a closed stream. */
  datatype Message = Response(id: int, payload: string) | Closed(error: string)

  datatype Ending = Got(message: Message) | Cancelled | WriteFailed

  /** Where a Call stands; Leaving is the deferred delete still to come. */
  datatype Phase = Writing | Waiting | Leaving(ending: Ending) | Returned(ending: Ending)

  /** Where the read loop stands between two lock regions. */
  datatype Reader = Reading | Delivering(id: int, payload: string) | Failing(left: set<int>, error: string) | Finished

  datatype Event =
    | Register
    | Written(k: int, ok: bool)
    | Cancel(k: int)
    | Receive(k: int)
    | Leave(k: int)
    | Incoming(id: int, payload: string)
    | StreamEnd(error: string)
    | Push

  /** The event is the deferred delete of a call that has its ending. */
  predicate Leaves(calls: map<int, Phase>, e: Event) {
    e.Leave? && e.k in calls && calls[e.k].Leaving?
  }

  predicate SameReturned(was: map<int, Phase>, now: map<int, Phase>) {
    && (forall k :: k in now && now[k].Returned? ==> k in was && was[k] == now[k])
    && (forall k :: k in was && was[k].Returned? ==> k in now && was[k] == now[k])
  }

  class Conn {
    var nextID: int
    var pending: set<int>
    var closed: bool
    var channels: map<int, Option<Message>>
    var calls: map<int, Phase>
    var reader: Reader
    /** The channels that were sent to, and everything that happened. */
    ghost var sent: set<int>
    ghost var seen: set<Event>

    /** A message a call may find in its channel: a response to itself that arrived, or the close. */
    ghost predicate Proper(k: int, m: Message)
      reads this`seen
    {
      match m
      case Response(id, payload) => id == k && Incoming(k, payload) in seen
      case Closed(error) => StreamEnd(error) in seen
    }

    /** The channel is still to be sent to by the read loop, which took it out of the table. */
    ghost predicate Held(k: int)
      reads this`reader
    {
      match reader
      case Delivering(id, _) => id == k
      case Failing(left, _) => k in left
      case _ => false
    }

    /** In the table, about to be sent to, or with a message waiting. */
    ghost predicate Answerable(k: int)
      requires k in channels
      reads this`pending, this`channels, this`reader
    {
      k in pending || Held(k) || channels[k].Some?
    }

    ghost predicate PhaseKept(k: int)
      requires k in calls && k in channels
      reads this`pending, this`channels, this`calls, this`reader, this`seen
    {
      match calls[k]
      case Writing => Answerable(k)
      case Waiting => Answerable(k)
      case Leaving(e) => e.Got? ==> Proper(k, e.message)
      case Returned(e) => k !in pending && (e.Got? ==> Proper(k, e.message))
    }

    ghost predicate CallKept(k: int)
      requires k in calls && k in channels
      reads this`pending, this`channels, this`calls, this`reader, this`sent, this`seen
    {
      && (k in pending ==> !Held(k) && k !in sent)
      && (Held(k) ==> k !in sent)
      && (k !in sent ==> channels[k] == None)
      && (channels[k].Some? ==> Proper(k, channels[k].value))
      && PhaseKept(k)
    }

    ghost predicate ReaderKept()
      reads this`reader, this`closed, this`pending, this`seen, this`calls
    {
      && (closed <==> reader.Failing? || reader.Finished?)
      && (closed ==> pending == {})
      && match reader
         case Delivering(id, payload) => id in calls && Incoming(id, payload) in seen
         case Failing(left, error) => StreamEnd(error) in seen && left <= calls.Keys
         case _ => true
    }

    ghost predicate Valid()
      reads this
    {
      && 0 <= nextID && (forall k :: k in calls <==> 1 <= k <= nextID) && calls.Keys == channels.Keys
      && pending <= calls.Keys && sent <= calls.Keys
      && ReaderKept()
      && forall k :: k in calls ==> CallKept(k)
    }

    constructor ()
      ensures Valid() && seen == {} && nextID == 0 && sent == {} && calls == map[] && reader == Reading
    {
      nextID, pending, closed, channels, calls, reader := 0, {}, false, map[], map[], Reading;
      sent, seen := {}, {};
    }

    /** The table is entered under the lock, or the call is refused. */
    method DoRegister()
      requires Valid()
      modifies this`nextID, this`pending, this`channels, this`calls, this`seen
      ensures Valid() && seen == old(seen) + {Register}
      ensures nextID == if old(closed) then old(nextID) else old(nextID) + 1
      ensures calls == if old(closed) then old(calls) else old(calls)[nextID := Writing]
      ensures channels == if old(closed) then old(channels) else old(channels)[nextID := None]
      ensures pending == if old(closed) then old(pending) else old(pending) + {nextID}
    {
      seen := seen + {Register};
      if !closed {
        nextID := nextID + 1;
        channels := channels[nextID := None];
        pending := pending + {nextID};
        calls := calls[nextID := Writing];
      }
      forall k | k in calls ensures CallKept(k) {
        assert k in old(calls) ==> old(CallKept(k));
      }
    }

    /** The request is on the wire, or could not be written. */
    method DoWritten(k: int, ok: bool)
      requires Valid()
      modifies this`calls, this`seen
      ensures Valid() && seen == old(seen) + {Written(k, ok)}
      ensures calls == if k in old(calls) && old(calls)[k].Writing?
                       then old(calls)[k := if ok then Waiting else Leaving(WriteFailed)] else old(calls)
    {
      seen := seen + {Written(k, ok)};
      if k in calls && calls[k].Writing? {
        calls := calls[k := if ok then Waiting else Leaving(WriteFailed)];
      }
      forall j | j in calls ensures CallKept(j) {
        assert old(CallKept(j));
      }
    }

    /** The caller's context ends while it waits. */
    method DoCancel(k: int)
      requires Valid()
      modifies this`calls, this`seen
      ensures Valid() && seen == old(seen) + {Cancel(k)}
      ensures calls == if k in old(calls) && old(calls)[k].Waiting? then old(calls)[k := Leaving(Cancelled)] else old(calls)
    {
      seen := seen + {Cancel(k)};
      if k in calls && calls[k].Waiting? {
        calls := calls[k := Leaving(Cancelled)];
      }
      forall j | j in calls ensures CallKept(j) {
        assert old(CallKept(j));
      }
    }

    /** The caller takes what is in its channel. */
    method DoReceive(k: int)
      requires Valid()
      modifies this`channels, this`calls, this`seen
      ensures Valid() && seen == old(seen) + {Receive(k)}
      ensures if k in old(calls) && old(calls)[k].Waiting? && old(channels)[k].Some?
              then calls == old(calls)[k := Leaving(Got(old(channels)[k].value))] && channels == old(channels)[k := None]
              else calls == old(calls) && channels == old(channels)
    {
      seen := seen + {Receive(k)};
      if k in calls && calls[k].Waiting? && channels[k].Some? {
        assert CallKept(k);
        calls := calls[k := Leaving(Got(channels[k].value))];
        channels := channels[k := None];
      }
      forall j | j in calls ensures CallKept(j) {
        assert old(CallKept(j));
      }
    }

    /** The deferred delete, whatever the call came to. */
    method DoLeave(k: int)
      requires Valid()
      modifies this`pending, this`calls, this`seen
      ensures Valid() && seen == old(seen) + {Leave(k)}
      ensures if k in old(calls) && old(calls)[k].Leaving?
              then calls == old(calls)[k := Returned(old(calls)[k].ending)] && pending == old(pending) - {k}
              else calls == old(calls) && pending == old(pending)
    {
      seen := seen + {Leave(k)};
      if k in calls && calls[k].Leaving? {
        pending := pending - {k};
        calls := calls[k := Returned(calls[k].ending)];
      }
      forall j | j in calls ensures CallKept(j) {
        assert old(CallKept(j));
      }
    }

    /** deliver's lock region: the entry leaves the table; a late, duplicate or unknown response
        finds none and is dropped. */
    method DoIncoming(id: int, payload: string)
      requires Valid()
      modifies this`pending, this`reader, this`seen
      ensures Valid() && seen == old(seen) + {Incoming(id, payload)}
      ensures if old(reader).Reading? && id in old(pending)
              then reader == Delivering(id, payload) && pending == old(pending) - {id}
              else reader == old(reader) && pending == old(pending)
    {
      seen := seen + {Incoming(id, payload)};
      if reader.Reading? && id in pending {
        pending := pending - {id};
        reader := Delivering(id, payload);
      }
      forall j | j in calls ensures CallKept(j) {
        assert old(CallKept(j));
      }
    }

    /** failAllPending's lock region. */
    method DoStreamEnd(error: string)
      requires Valid()
      modifies this`pending, this`closed, this`reader, this`seen
      ensures Valid() && seen == old(seen) + {StreamEnd(error)}
      ensures if old(reader).Reading? then closed && reader == Failing(old(pending), error) && pending == {}
              else closed == old(closed) && reader == old(reader) && pending == old(pending)
    {
      seen := seen + {StreamEnd(error)};
      if reader.Reading? {
        closed := true;
        reader := Failing(pending, error);
        pending := {};
      }
      forall j | j in calls ensures CallKept(j) {
        assert old(CallKept(j));
      }
    }

    /** A non-blocking send of the read loop: the channel was never sent to before, so it is always
        found empty, and nothing is dropped. */
    method Send(id: int, m: Message, next: Reader)
      requires Valid() && Held(id) && id in calls && Proper(id, m)
      requires reader.Delivering? ==> next == Reading
      requires reader.Failing? ==> next == Failing(reader.left - {id}, reader.error)
      modifies this`channels, this`reader, this`sent
      ensures Valid() && sent == old(sent) + {id} && id !in old(sent) && reader == next
      ensures channels == old(channels)[id := Some(m)]
    {
      assert CallKept(id);
      if channels[id].None? {
        channels := channels[id := Some(m)];
      }
      sent := sent + {id};
      reader := next;
      forall j | j in calls ensures CallKept(j) {
        assert old(CallKept(j));
      }
    }

    method DoPush() returns (to: Option<int>)
      requires Valid()
      modifies this`channels, this`reader, this`sent, this`seen
      ensures Valid() && seen == old(seen) + {Push}
      ensures to.None? ==> sent == old(sent)
      ensures to.Some? ==> to.value !in old(sent) && sent == old(sent) + {to.value}
      ensures match old(reader)
        case Delivering(id, payload) =>
          to == Some(id) && reader == Reading && channels == old(channels)[id := Some(Response(id, payload))]
        case Failing(left, error) =>
          if left == {} then to.None? && reader == Finished && channels == old(channels)
          else to.Some? && to.value in left && reader == Failing(left - {to.value}, error)
               && channels == old(channels)[to.value := Some(Closed(error))]
        case _ => to.None? && reader == old(reader) && channels == old(channels)
    {
      to := None;
      Noted(Push);
      match reader
      case Delivering(id, payload) =>
        Send(id, Response(id, payload), Reading);
        to := Some(id);
      case Failing(left, error) =>
        to := AnyOf(left);
        if to.Some? {
          Send(to.value, Closed(error), Failing(left - {to.value}, error));
        } else {
          reader := Finished;
          forall j | j in calls ensures CallKept(j) {
            assert old(CallKept(j));
          }
        }
      case _ =>
    }

    /** Once the read loop has closed the connection and told every channel it took: a call that
        still waits has its message, and none can register. */
    lemma NobodyBlocked(k: int)
      requires Valid() && reader.Finished? && k in calls && (calls[k].Waiting? || calls[k].Writing?)
      ensures channels[k].Some? && Proper(k, channels[k].value) && closed
    {
      assert CallKept(k);
    }

    /** What a call that is about to return comes back with. */
    lemma OwnMessageOnly(k: int)
      requires Valid() && k in calls && (calls[k].Leaving? || calls[k].Returned?) && calls[k].ending.Got?
      ensures Proper(k, calls[k].ending.message)
    {
      assert CallKept(k);
    }

    method Do(e: Event) returns (to: Option<int>)
      requires Valid()
      modifies this
      ensures Valid() && seen == old(seen) + {e}
      ensures to.None? ==> sent == old(sent)
      ensures to.Some? ==> to.value !in old(sent) && sent == old(sent) + {to.value}
      ensures old(closed) ==> closed && nextID == old(nextID) && calls.Keys == old(calls).Keys
      ensures !old(closed) && closed ==> e.StreamEnd?
      ensures nextID != old(nextID) ==> e.Register?
      ensures Leaves(old(calls), e) ==> calls == old(calls)[e.k := Returned(old(calls)[e.k].ending)]
      ensures !Leaves(old(calls), e) ==> SameReturned(old(calls), calls)
    {
      to := None;
      match e
      case Register => DoRegister();
      case Written(k, ok) => DoWritten(k, ok);
      case Cancel(k) => DoCancel(k);
      case Receive(k) => DoReceive(k);
      case Leave(k) => DoLeave(k);
      case Incoming(id, payload) => DoIncoming(id, payload);
      case StreamEnd(error) => DoStreamEnd(error);
      case Push => to := DoPush();
    }

    /** Nothing depends on an event that is neither a response nor the end of the stream. */
    ghost method Noted(e: Event)
      requires Valid()
      modifies this`seen
      ensures Valid() && seen == old(seen) + {e}
    {
      seen := seen + {e};
      forall j | j in calls ensures CallKept(j) {
        assert old(CallKept(j));
      }
    }
  }

  /** The next entry of a map being walked, in whatever order. */
  method AnyOf<T(==)>(s: set<T>) returns (x: Option<T>)
    ensures x.Some? ==> x.value in s
    ensures x.None? <==> s == {}
  {
    x := None;
    if s != {} {
      var y :| y in s;
      x := Some(y);
    }
  }

  // ---- every interleaving ----

  /** How a call stands at the end, and what its channel holds then. */
  datatype Fate = Fate(phase: Phase, channel: Option<Message>)

  /** A call may only come back with a response to its own id that arrived, or with the close of
      the stream. */
  predicate Honest(k: int, e: Ending, schedule: seq<Event>) {
    e.Got? ==>
      match e.message
      case Response(id, payload) => id == k && Incoming(k, payload) in schedule
      case Closed(error) => StreamEnd(error) in schedule
  }

  /** The places where calls registered and where the connection closed; none of the former comes
      behind the latter. */
  predicate NoneAfterClose(schedule: seq<Event>, registered: seq<nat>, closedAt: Option<nat>) {
    && (closedAt.Some? ==> closedAt.value < |schedule| && schedule[closedAt.value].StreamEnd?)
    && (forall i :: 0 <= i < |registered| ==> registered[i] < |schedule| && schedule[registered[i]].Register?)
    && (closedAt.Some? ==> forall i :: 0 <= i < |registered| ==> registered[i] < closedAt.value)
  }

  /** Which calls have returned, and where: each by its own deferred delete, with what had arrived
      by then. */
  ghost predicate ReturnsKept(schedule: seq<Event>, calls: map<int, Phase>, returnedAt: map<int, nat>) {
    && (forall k :: k in returnedAt <==> k in calls && calls[k].Returned?)
    && (forall k :: k in returnedAt ==>
          && returnedAt[k] < |schedule| && schedule[returnedAt[k]] == Leave(k)
          && Honest(k, calls[k].ending, schedule[..returnedAt[k]]))
  }

  lemma ReturnsStand(schedule: seq<Event>, i: nat, was: map<int, Phase>, now: map<int, Phase>, returnedAt: map<int, nat>)
    requires i < |schedule| && ReturnsKept(schedule[..i], was, returnedAt)
    requires SameReturned(was, now)
    ensures ReturnsKept(schedule[..i + 1], now, returnedAt)
  {
    hide Honest;
    forall k | k in returnedAt
      ensures schedule[..i + 1][returnedAt[k]] == Leave(k)
      ensures Honest(k, now[k].ending, schedule[..i + 1][..returnedAt[k]])
    {
      assert schedule[..i][..returnedAt[k]] == schedule[..i + 1][..returnedAt[k]];
      assert schedule[..i][returnedAt[k]] == schedule[..i + 1][returnedAt[k]];
    }
  }

  lemma OneReturns(schedule: seq<Event>, i: nat, was: map<int, Phase>, now: map<int, Phase>, returnedAt: map<int, nat>,
                   k: int)
    requires i < |schedule| && ReturnsKept(schedule[..i], was, returnedAt)
    requires schedule[i] == Leave(k) && Leaves(was, schedule[i]) && now == was[k := Returned(was[k].ending)]
    requires Honest(k, was[k].ending, schedule[..i])
    ensures ReturnsKept(schedule[..i + 1], now, returnedAt[k := i])
  {
    hide Honest;
    var at := returnedAt[k := i];
    forall j | j in at
      ensures schedule[..i + 1][at[j]] == Leave(j)
      ensures Honest(j, now[j].ending, schedule[..i + 1][..at[j]])
    {
      assert schedule[..i + 1][..at[j]] == schedule[..i][..at[j]];
      if j == k {
        assert schedule[..i][..i] == schedule[..i];
      } else {
        assert schedule[..i][at[j]] == schedule[..i + 1][at[j]];
      }
    }
  }

  lemma NoneReturned()
    ensures ReturnsKept([], map[], map[])
  {
  }

  lemma ReturnsTell(schedule: seq<Event>, calls: map<int, Phase>, returnedAt: map<int, nat>)
    requires ReturnsKept(schedule, calls, returnedAt)
    ensures forall k :: k in calls && calls[k].Returned? <==> k in returnedAt
    ensures forall k :: k in returnedAt ==>
      && returnedAt[k] < |schedule| && schedule[returnedAt[k]] == Leave(k)
      && Honest(k, calls[k].ending, schedule[..returnedAt[k]])
  {
  }

  lemma ProperIsHonest(conn: Conn, k: int, m: Message, schedule: seq<Event>)
    requires conn.Proper(k, m) && forall e :: e in conn.seen ==> e in schedule
    ensures Honest(k, Got(m), schedule)
  {
  }

  lemma HonestSoFar(conn: Conn, k: int, schedule: seq<Event>)
    requires conn.Valid() && k in conn.calls && conn.calls[k].Leaving?
    requires forall e :: e in conn.seen ==> e in schedule
    ensures Honest(k, conn.calls[k].ending, schedule)
  {
    if conn.calls[k].ending.Got? {
      conn.OwnMessageOnly(k);
    }
  }

  /** Any interleaving of callers registering, writing, waiting, being cancelled and leaving with
      a read loop that delivers, meets late and duplicate responses, and closes. */
  method Interleave(schedule: seq<Event>)
    returns (fates: map<int, Fate>, finished: bool, sends: seq<int>, registered: seq<nat>, closedAt: Option<nat>,
             returnedAt: map<int, nat>)
    ensures Distinct(sends)
    ensures finished ==> closedAt.Some?
    ensures NoneAfterClose(schedule, registered, closedAt)
    ensures forall k :: k in fates && fates[k].phase.Returned? <==> k in returnedAt
    ensures forall k :: k in returnedAt ==>
      && returnedAt[k] < |schedule| && schedule[returnedAt[k]] == Leave(k)
      && Honest(k, fates[k].phase.ending, schedule[..returnedAt[k]])
    ensures finished ==> forall k :: k in fates && fates[k].phase.Waiting? ==>
      fates[k].channel.Some? && Honest(k, Got(fates[k].channel.value), schedule)
  {
    hide ReturnsKept, Honest, SameReturned;
    var conn := new Conn();
    sends, registered, closedAt, returnedAt := [], [], None, map[];
    NoneReturned();
    for i := 0 to |schedule|
      invariant fresh(conn) && conn.Valid()
      invariant forall e :: e in conn.seen ==> e in schedule[..i]
      invariant Distinct(sends) && forall k :: k in sends <==> k in conn.sent
      invariant closedAt.Some? <==> conn.closed
      invariant NoneAfterClose(schedule[..i], registered, closedAt)
      invariant ReturnsKept(schedule[..i], conn.calls, returnedAt)
    {
      var issued, open, were := conn.nextID, !conn.closed, conn.calls;
      ghost var had := conn.sent;
      if Leaves(were, schedule[i]) {
        HonestSoFar(conn, schedule[i].k, schedule[..i]);
      }
      var to := conn.Do(schedule[i]);
      if Leaves(were, schedule[i]) {
        OneReturns(schedule, i, were, conn.calls, returnedAt, schedule[i].k);
        returnedAt := returnedAt[schedule[i].k := i];
      } else {
        ReturnsStand(schedule, i, were, conn.calls, returnedAt);
      }
      if conn.nextID != issued {
        registered := registered + [i];
      }
      if open && conn.closed {
        closedAt := Some(i);
      }
      assert schedule[..i + 1][..i] == schedule[..i] && schedule[..i + 1][i] == schedule[i];
      if to.Some? {
        assert forall k :: k in sends ==> k in had;
        assert to.value !in had;
        sends := sends + [to.value];
      }
    }
    assert schedule[..|schedule|] == schedule;
    finished := conn.reader.Finished?;
    fates := map k | k in conn.calls :: Fate(conn.calls[k], conn.channels[k]);
    ReturnsTell(schedule, conn.calls, returnedAt);
    if finished {
      forall k | k in fates && fates[k].phase.Waiting?
        ensures fates[k].channel.Some? && Honest(k, Got(fates[k].channel.value), schedule)
      {
        conn.NobodyBlocked(k);
        ProperIsHonest(conn, k, conn.channels[k].value, schedule);
      }
    }
  }

  // ---- frames ----

  const PARSE_ERROR := -32700
  const INVALID_REQUEST := -32600
  const METHOD_NOT_FOUND := -32601
  const INTERNAL_ERROR := -32603

  /** A decoded frame: whether it names an id, a method, and a protocol version other than 2.0. */
  datatype Frame = Frame(foreign: bool, id: Option<string>, methodName: string)

  datatype Action =
    | Deliver(id: string)
    | Dispatch(id: string, methodName: string)
    | Notify(methodName: string)
    | ReplyError(to: Option<string>, code: int)
    | Ignore

  /** handleLine; None is a line that is no JSON. */
  function HandleLine(frame: Option<Frame>): Action {
    match frame
    case None => ReplyError(None, PARSE_ERROR)
    case Some(f) =>
      if f.foreign then (if f.id.Some? then ReplyError(f.id, INVALID_REQUEST) else Ignore)
      else if f.methodName == "" && f.id.Some? then Deliver(f.id.value)
      else if f.methodName != "" && f.id.Some? then Dispatch(f.id.value, f.methodName)
      else if f.methodName != "" then Notify(f.methodName)
      else if f.id.Some? then ReplyError(f.id, INVALID_REQUEST)
      else Ignore
  }

  /** What a request handler comes to; a result may fail to be encoded. */
  datatype Handled = NoHandler | Raised(code: Option<int>) | Unencodable | Answer(value: string)

  datatype Reply = Reply(id: Option<string>, value: Option<string>, code: Option<int>)

  /** dispatchRequest. */
  function DispatchRequest(id: string, h: Handled): Reply {
    match h
    case NoHandler => Reply(Some(id), None, Some(METHOD_NOT_FOUND))
    case Raised(code) => Reply(Some(id), None, Some(if code.Some? then code.value else INTERNAL_ERROR))
    case Unencodable => Reply(Some(id), None, Some(INTERNAL_ERROR))
    case Answer(v) => Reply(Some(id), Some(v), None)
  }

  /** The replies one line leads to, `h` being what its handler comes to if there is one. */
  function Replies(frame: Option<Frame>, h: Handled): seq<Reply> {
    match HandleLine(frame)
    case ReplyError(to, code) => [Reply(to, None, Some(code))]
    case Dispatch(id, _) => [DispatchRequest(id, h)]
    case _ => []
  }

  /** Where every frame goes: what is no JSON is answered -32700, a foreign frame -32600 if it has an id;
      a response goes to the call of its id, a request to its handler, a notification to its own. */
  lemma FramesGo(frame: Option<Frame>)
    ensures HandleLine(frame).ReplyError? <==> frame.None? || (frame.value.foreign && frame.value.id.Some?)
    ensures frame.None? ==> HandleLine(frame) == ReplyError(None, -32700)
    ensures frame.Some? ==>
      var Frame(foreign, id, methodName) := frame.value;
      && (foreign && id.Some? ==> HandleLine(frame) == ReplyError(id, -32600))
      && (HandleLine(frame).Deliver? <==> !foreign && methodName == "" && id.Some?)
      && (HandleLine(frame).Deliver? ==> Some(HandleLine(frame).id) == id)
      && (HandleLine(frame).Dispatch? <==> !foreign && methodName != "" && id.Some?)
      && (HandleLine(frame).Dispatch? ==> Some(HandleLine(frame).id) == id && HandleLine(frame).methodName == methodName)
      && (HandleLine(frame).Notify? <==> !foreign && methodName != "" && id.None?)
      && (HandleLine(frame).Notify? ==> HandleLine(frame).methodName == methodName)
  {
  }

  /** A request nobody handles is answered -32601; a handler's error with its own code, or -32603 if it
      has none; a result that cannot be encoded -32603; and any other with the result. */
  lemma RequestsComeTo(id: string, h: Handled)
    ensures var r := DispatchRequest(id, h);
      && r.id == Some(id)
      && (h.NoHandler? ==> r.code == Some(-32601))
      && (h.Raised? ==> r.code == if h.code.Some? then h.code else Some(-32603))
      && (h.Unencodable? ==> r.code == Some(-32603))
      && (h.Answer? <==> r.value.Some?) && (h.Answer? ==> r.value.value == h.value && r.code == None)
  {
  }

  /** Section 5: a request is answered exactly once, with its own id, by a result or an error and
      never both; section 4.1: a notification is never answered. */
  lemma RequestsAnsweredOnce(f: Frame, h: Handled)
    requires !f.foreign
    ensures |Replies(Some(f), h)| == if f.methodName != "" && f.id.Some? then 1 else 0
    ensures forall r :: r in Replies(Some(f), h) ==> r.id == f.id && (r.value.Some? <==> r.code.None?)
  {
  }

  /** Exactly which frames without a method are answered although they are responses: those of a
      foreign version. A reply to a reply is what section 5 does not provide for. */
  lemma ResponsesAnsweredIffForeign(f: Frame, h: Handled)
    requires f.methodName == "" && f.id.Some?
    ensures Replies(Some(f), h) != [] <==> f.foreign
  {
  }

  /** The last error branch is never taken, so a frame with neither method nor id is dropped in
      silence, where section 5 asks for an Invalid Request error with a null id. */
  lemma EmptyFrameDropped(f: Frame, h: Handled)
    requires f.methodName == "" && f.id.None?
    ensures Replies(Some(f), h) == []
  {
  }
}
