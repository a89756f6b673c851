/** The persisted history of an ACP session (internal/acp/agent.go): what is written turn by turn,
    and what is read back. */
module SessionHistory {
  import opened Basics

  datatype Turn = Turn(user: string, assistant: string)

  /** A stored event as loadHistory sees it: a message with a role it knows, or anything else. */
  datatype Event = User(content: string) | Assistant(content: string) | Unrelated(kind: string)

  // ---- reading ----

  /** The turns told by `events` when `pending` is a user message still without an answer. */
  function Load(events: seq<Event>, pending: Option<string>): seq<Turn>
    decreases |events|
  {
    if events == [] then (if pending.Some? then [Turn(pending.value, "")] else [])
    else
      match events[0]
      case User(content) =>
        (if pending.Some? then [Turn(pending.value, "")] else []) + Load(events[1..], Some(content))
      case Assistant(content) =>
        [Turn(if pending.Some? then pending.value else "", content)] + Load(events[1..], None)
      case Unrelated(_) => Load(events[1..], pending)
  }

  /** What the first event adds to the turns told so far, and what is then without an answer. */
  lemma LoadHead(told: seq<Turn>, events: seq<Event>, pending: Option<string>)
    requires events != []
    ensures told + Load(events, pending) ==
      match events[0]
      case User(content) =>
        told + (if pending.Some? then [Turn(pending.value, "")] else []) + Load(events[1..], Some(content))
      case Assistant(content) =>
        told + [Turn(if pending.Some? then pending.value else "", content)] + Load(events[1..], None)
      case Unrelated(_) => told + Load(events[1..], pending)
  {
    match events[0]
    case User(content) =>
      Grouped(told, if pending.Some? then [Turn(pending.value, "")] else [], Load(events[1..], Some(content)));
    case Assistant(content) =>
      Grouped(told, [Turn(if pending.Some? then pending.value else "", content)], Load(events[1..], None));
    case Unrelated(_) =>
  }

  lemma Grouped(a: seq<Turn>, b: seq<Turn>, c: seq<Turn>)
    ensures a + (b + c) == a + b + c
  {
  }

  lemma LoadEnd(pending: Option<string>)
    ensures Load([], pending) == if pending.Some? then [Turn(pending.value, "")] else []
  {
  }

  method LoadHistory(events: seq<Event>) returns (records: seq<Turn>)
    ensures records == Load(events, None)
  {
    hide Load;
    records := [];
    var pendingUser, havePending := "", false;
    assert events[0..] == events;
    for i := 0 to |events|
      invariant !havePending ==> pendingUser == ""
      invariant Load(events, None) == records + Load(events[i..], if havePending then Some(pendingUser) else None)
    {
      assert events[i..][1..] == events[i + 1..] && events[i..][0] == events[i];
      LoadHead(records, events[i..], if havePending then Some(pendingUser) else None);
      assert records + [] == records;
      match events[i]
      case User(content) =>
        if havePending {
          records := records + [Turn(pendingUser, "")];
        }
        pendingUser, havePending := content, true;
      case Assistant(content) =>
        records := records + [Turn(pendingUser, content)];
        pendingUser, havePending := "", false;
      case Unrelated(_) =>
    }
    assert events[|events|..] == [];
    LoadEnd(if havePending then Some(pendingUser) else None);
    if havePending {
      records := records + [Turn(pendingUser, "")];
    }
  }

  // ---- writing ----

  /** Whether the two appends of a turn reached the store; their errors are ignored. */
  datatype Kept = Kept(user: bool, assistant: bool)

  const BOTH := Kept(true, true)

  function Written(t: Turn, k: Kept): seq<Event> {
    (if k.user then [User(t.user)] else [])
    + (if t.assistant != "" && k.assistant then [Assistant(t.assistant)] else [])
  }

  function AllWritten(turns: seq<Turn>, kept: seq<Kept>): seq<Event>
    requires |turns| == |kept|
  {
    if turns == [] then [] else Written(turns[0], kept[0]) + AllWritten(turns[1..], kept[1..])
  }

  /** The message events among others. */
  function Messages(events: seq<Event>): seq<Event> {
    if events == [] then []
    else (if events[0].Unrelated? then [] else [events[0]]) + Messages(events[1..])
  }

  lemma {:induction false} UnrelatedIgnored(events: seq<Event>, pending: Option<string>)
    ensures Load(events, pending) == Load(Messages(events), pending)
    decreases |events|
  {
    if events != [] {
      match events[0]
      case User(content) =>
        UnrelatedIgnored(events[1..], Some(content));
        assert Messages(events)[1..] == Messages(events[1..]);
      case Assistant(content) =>
        UnrelatedIgnored(events[1..], None);
        assert Messages(events)[1..] == Messages(events[1..]);
      case Unrelated(_) =>
        UnrelatedIgnored(events[1..], pending);
        assert Messages(events) == [] + Messages(events[1..]) == Messages(events[1..]);
    }
  }

  // ---- exactly when the history comes back ----

  /** Every answer was kept, and every question; but for an empty question, which may be missing in
      front of its answer if the turn before was answered. `open` tells that it was not. */
  predicate Faithful(turns: seq<Turn>, kept: seq<Kept>, open: bool)
    requires |turns| == |kept|
  {
    turns == []
    || (if turns[0].assistant == "" then kept[0].user && Faithful(turns[1..], kept[1..], true)
        else
          && kept[0].assistant && (kept[0].user || (!open && turns[0].user == ""))
          && Faithful(turns[1..], kept[1..], false))
  }

  function WithPending(pending: Option<string>, turns: seq<Turn>): seq<Turn> {
    if pending.Some? then [Turn(pending.value, "")] + turns else turns
  }

  lemma LoadUser(content: string, rest: seq<Event>, pending: Option<string>)
    ensures Load([User(content)] + rest, pending) == WithPending(pending, Load(rest, Some(content)))
  {
    assert ([User(content)] + rest)[1..] == rest;
  }

  lemma LoadAssistant(content: string, rest: seq<Event>, pending: Option<string>)
    ensures Load([Assistant(content)] + rest, pending) ==
      [Turn(if pending.Some? then pending.value else "", content)] + Load(rest, None)
  {
    assert ([Assistant(content)] + rest)[1..] == rest;
  }

  /** What one turn adds to the reading. */
  lemma LoadTurn(t: Turn, k: Kept, rest: seq<Event>, pending: Option<string>)
    ensures Load(Written(t, k) + rest, pending) ==
      var answered := t.assistant != "" && k.assistant;
      if k.user then
        if answered then WithPending(pending, [t] + Load(rest, None)) else WithPending(pending, Load(rest, Some(t.user)))
      else
        if answered then [Turn(if pending.Some? then pending.value else "", t.assistant)] + Load(rest, None)
        else Load(rest, pending)
  {
    var asks := if k.user then [User(t.user)] else [];
    var answers := if t.assistant != "" && k.assistant then [Assistant(t.assistant)] else [];
    assert Written(t, k) + rest == asks + (answers + rest);
    if k.user {
      LoadUser(t.user, answers + rest, pending);
    } else {
      assert asks + (answers + rest) == answers + rest;
    }
    if answers != [] {
      LoadAssistant(t.assistant, rest, if k.user then Some(t.user) else pending);
    } else {
      assert answers + rest == rest;
    }
  }

  /** No turn is ever read twice. */
  lemma {:induction false} NoMoreThanWritten(turns: seq<Turn>, kept: seq<Kept>, pending: Option<string>)
    requires |turns| == |kept|
    ensures |Load(AllWritten(turns, kept), pending)| <= |turns| + if pending.Some? then 1 else 0
    decreases |turns|
  {
    if turns != [] {
      LoadTurn(turns[0], kept[0], AllWritten(turns[1..], kept[1..]), pending);
      NoMoreThanWritten(turns[1..], kept[1..], None);
      NoMoreThanWritten(turns[1..], kept[1..], pending);
      NoMoreThanWritten(turns[1..], kept[1..], Some(turns[0].user));
    }
  }

  /** Reading gives back what was written, turn by turn, exactly when it was faithfully kept. */
  lemma {:induction false} ReadBack(turns: seq<Turn>, kept: seq<Kept>, pending: Option<string>)
    requires |turns| == |kept|
    ensures Load(AllWritten(turns, kept), pending) == WithPending(pending, turns)
      <==> Faithful(turns, kept, pending.Some?)
    decreases |turns|, 1
  {
    if turns != [] {
      hide Load, Written;
      var t, k, rest := turns[0], kept[0], AllWritten(turns[1..], kept[1..]);
      LoadTurn(t, k, rest, pending);
      assert turns == [t] + turns[1..];
      if k.user && (t.assistant == "" || !k.assistant) {
        PendingTurn(t, k, turns[1..], kept[1..], pending);
      } else if t.assistant != "" && k.assistant {
        ReadBack(turns[1..], kept[1..], None);
        NoMoreThanWritten(turns[1..], kept[1..], None);
        if k.user {
          SameHead(pending, t, Load(rest, None), turns[1..]);
        } else {
          SameTail(Turn(if pending.Some? then pending.value else "", t.assistant), t, Load(rest, None), turns[1..]);
        }
      } else {
        NoMoreThanWritten(turns[1..], kept[1..], pending);
      }
    }
  }

  lemma SameTail(x: Turn, y: Turn, a: seq<Turn>, b: seq<Turn>)
    ensures [x] + a == [y] + b <==> x == y && a == b
  {
    assert ([x] + a)[0] == x && ([y] + b)[0] == y;
    assert ([x] + a)[1..] == a && ([y] + b)[1..] == b;
  }

  lemma SameHead(pending: Option<string>, t: Turn, a: seq<Turn>, b: seq<Turn>)
    ensures WithPending(pending, [t] + a) == WithPending(pending, [t] + b) <==> a == b
  {
    SameTail(t, t, a, b);
    if pending.Some? {
      SameTail(Turn(pending.value, ""), Turn(pending.value, ""), [t] + a, [t] + b);
    }
  }

  /** A question left open is either read back without an answer, or swallows a later turn. */
  lemma {:induction false} OpenQuestion(turns: seq<Turn>, kept: seq<Kept>, user: string)
    requires |turns| == |kept|
    ensures var read := Load(AllWritten(turns, kept), Some(user));
      read != [] && (read[0].assistant == "" || |read| <= |turns|)
    decreases |turns|
  {
    if turns != [] {
      LoadTurn(turns[0], kept[0], AllWritten(turns[1..], kept[1..]), Some(user));
      NoMoreThanWritten(turns[1..], kept[1..], None);
      OpenQuestion(turns[1..], kept[1..], user);
    }
  }

  lemma {:induction false} PendingTurn(t: Turn, k: Kept, turns: seq<Turn>, kept: seq<Kept>, pending: Option<string>)
    requires |turns| == |kept| && k.user && (t.assistant == "" || !k.assistant)
    ensures WithPending(pending, Load(AllWritten(turns, kept), Some(t.user))) == WithPending(pending, [t] + turns)
      <==> t.assistant == "" && Faithful(turns, kept, true)
    decreases |turns|, 2
  {
    var read := Load(AllWritten(turns, kept), Some(t.user));
    ReadBack(turns, kept, Some(t.user));
    OpenQuestion(turns, kept, t.user);
    if pending.Some? {
      assert WithPending(pending, read)[1..] == read && WithPending(pending, [t] + turns)[1..] == [t] + turns;
    }
    assert ([t] + turns)[0] == t && |[t] + turns| == |turns| + 1;
    assert ([t] + turns)[1..] == turns;
  }

  function AllKept(n: nat): (r: seq<Kept>)
    ensures |r| == n
  {
    seq(n, _ => BOTH)
  }

  lemma {:induction false} KeptIsFaithful(turns: seq<Turn>, open: bool)
    ensures Faithful(turns, AllKept(|turns|), open)
    decreases |turns|
  {
    if turns != [] {
      assert AllKept(|turns|)[1..] == AllKept(|turns| - 1);
      KeptIsFaithful(turns[1..], turns[0].assistant == "");
    }
  }

  /** With every append kept and anything else in between, the history comes back: empty answers,
      empty questions and all. */
  lemma HistoryRoundTrip(turns: seq<Turn>, events: seq<Event>)
    requires Messages(events) == AllWritten(turns, AllKept(|turns|))
    ensures Load(events, None) == turns
  {
    UnrelatedIgnored(events, None);
    KeptIsFaithful(turns, false);
    ReadBack(turns, AllKept(|turns|), None);
  }

  /** Exactly when it comes back although appends may fail. */
  lemma HistoryComesBackIffKept(turns: seq<Turn>, kept: seq<Kept>, events: seq<Event>)
    requires |turns| == |kept| && Messages(events) == AllWritten(turns, kept)
    ensures Load(events, None) == turns <==> Faithful(turns, kept, false)
  {
    UnrelatedIgnored(events, None);
    ReadBack(turns, kept, None);
  }

  /** Why turns of one session take a lock: two turns that interleave are read back as three, and
      the first answer stands under the second question. */
  lemma UnserialisedTurnsMix(t: Turn, s: Turn)
    requires t.assistant != "" && s.assistant != ""
    ensures Load([User(t.user), User(s.user), Assistant(t.assistant), Assistant(s.assistant)], None)
         == [Turn(t.user, ""), Turn(s.user, t.assistant), Turn("", s.assistant)]
  {
    var e3 := [Assistant(s.assistant)];
    var e2 := [Assistant(t.assistant)] + e3;
    var e1 := [User(s.user)] + e2;
    LoadUser(t.user, e1, None);
    LoadUser(s.user, e2, Some(t.user));
    LoadAssistant(t.assistant, e3, Some(s.user));
    LoadAssistant(s.assistant, [], None);
    assert [Assistant(s.assistant)] + [] == e3;
    assert [User(t.user), User(s.user), Assistant(t.assistant), Assistant(s.assistant)] == [User(t.user)] + e1;
  }

  // ---- a live session ----

  lemma {:induction false} WrittenSnoc(turns: seq<Turn>, kept: seq<Kept>, t: Turn, k: Kept)
    requires |turns| == |kept|
    ensures AllWritten(turns + [t], kept + [k]) == AllWritten(turns, kept) + Written(t, k)
    decreases |turns|
  {
    hide Written;
    if turns == [] {
      assert [t][1..] == [] && [k][1..] == [];
      assert [] + [t] == [t] && [] + [k] == [k];
      assert AllWritten([t], [k]) == Written(t, k) + [];
    } else {
      assert (turns + [t])[1..] == turns[1..] + [t] && (kept + [k])[1..] == kept[1..] + [k];
      WrittenSnoc(turns[1..], kept[1..], t, k);
      assert AllWritten(turns + [t], kept + [k])
          == Written(turns[0], kept[0]) + (AllWritten(turns[1..], kept[1..]) + Written(t, k));
    }
  }

  lemma {:induction false} MessagesConcat(a: seq<Event>, b: seq<Event>)
    ensures Messages(a + b) == Messages(a) + Messages(b)
    decreases |a|
  {
    if a == [] {
      assert a + b == b;
    } else {
      assert (a + b)[1..] == a[1..] + b;
      MessagesConcat(a[1..], b);
      var own := if a[0].Unrelated? then [] else [a[0]];
      assert Messages(a + b) == own + (Messages(a[1..]) + Messages(b));
    }
  }

  /** One session: the event log on disk and the history in memory. The turn lock is held from the
      first append of a turn to the last; writers of other events take no such lock. */
  class Session {
    var store: seq<Event>
    var history: seq<Turn>
    /** Which appends of each turn reached the store. */
    ghost var kept: seq<Kept>

    ghost predicate Valid()
      reads this
    {
      |kept| == |history| && Messages(store) == AllWritten(history, kept)
    }

    constructor ()
      ensures Valid() && history == [] && store == [] && kept == []
    {
      store, history, kept := [], [], [];
    }

    /** An append to the log; its error is ignored. */
    method Append(e: Event, ok: bool)
      modifies this`store
      ensures store == if ok then old(store) + [e] else old(store)
      ensures Messages(store) == Messages(old(store)) + if ok && !e.Unrelated? then [e] else []
    {
      if ok {
        MessagesConcat(store, [e]);
        assert [e][1..] == [];
        store := store + [e];
      }
    }

    /** Something else is logged. */
    method LogOther(kind: string, ok: bool)
      requires Valid()
      modifies this`store
      ensures Valid() && store == if ok then old(store) + [Unrelated(kind)] else old(store)
    {
      Append(Unrelated(kind), ok);
    }

    /** persistTurn: `k` says which of its appends reach the store, `between` is what others log
        between them. In memory the turn is there either way. */
    method PersistTurn(user: string, assistant: string, k: Kept, between: seq<string>)
      requires Valid()
      modifies this
      ensures Valid() && history == old(history) + [Turn(user, assistant)] && kept == old(kept) + [k]
    {
      ghost var before := store;
      Append(User(user), k.user);
      ghost var asked := if k.user then [User(user)] else [];
      for i := 0 to |between|
        invariant Messages(store) == Messages(before) + asked
        invariant history == old(history) && kept == old(kept)
      {
        Append(Unrelated(between[i]), true);
      }
      if assistant != "" {
        Append(Assistant(assistant), k.assistant);
      }
      WrittenSnoc(history, kept, Turn(user, assistant), k);
      history, kept := history + [Turn(user, assistant)], kept + [k];
    }

    /** session/load on the log as it stands: the history in memory comes back exactly if it was
        faithfully kept. */
    method Reload() returns (records: seq<Turn>)
      requires Valid()
      ensures records == history <==> Faithful(history, kept, false)
    {
      records := LoadHistory(store);
      HistoryComesBackIffKept(history, kept, store);
    }
  }
}
