/** The command session of one agent connection, and the registry that hands
    commands to the newest connection of each agent. */
module Session {
  import opened Domain
  import opened Framing

  const U64_MAX: nat := 0xFFFF_FFFF_FFFF_FFFF

  datatype Body = Good(value: nat) | Bad(code: int) | Neither

  // A line from the agent: a response, JSON of another shape, or no JSON at all.
  datatype Frame = Response(current: bool, id: nat, body: Body) | OtherJson | Garbage

  datatype Request = Request(id: nat, command: nat)

  datatype CallError = Disconnected | Timeout | Protocol | Remote(code: int) | Serialization

  // Errors after which the stream can no longer be trusted.
  predicate Unusable(r: Result<nat, CallError>) {
    r.Err? && (r.error.Disconnected? || r.error.Timeout? || r.error.Protocol?)
  }

  // How a frame answers request `id`.
  function Verdict(frame: Frame, id: nat): (r: Result<nat, CallError>)
    ensures forall v: nat :: r == Ok(v) <==> frame == Response(true, id, Good(v))
    ensures forall code :: r == Err(Remote(code)) <==> frame == Response(true, id, Bad(code))
    ensures r == Err(Serialization) <==> frame.OtherJson?
    ensures r != Err(Timeout) && r != Err(Disconnected)
  {
    match frame
    case Garbage => Err(Protocol)
    case OtherJson => Err(Serialization)
    case Response(current, answered, body) =>
      if !current || answered != id then Err(Protocol)
      else
        match body
        case Good(v) => Ok(v)
        case Bad(code) => Err(Remote(code))
        case Neither => Err(Protocol)
  }

  // The caller is told what the agent said.
  ghost predicate Tells(r: Result<nat, CallError>, body: Body) {
    && (forall v: nat :: r == Ok(v) <==> body == Good(v))
    && (forall code :: r == Err(Remote(code)) <==> body == Bad(code))
  }

  // Ids count up from 1 and start over after the largest.
  function NextId(id: nat): nat {
    if id == U64_MAX then 1 else id + 1
  }

  function IdAfter(first: nat, n: nat): nat
    requires first >= 1
  {
    (first - 1 + n) % U64_MAX + 1
  }

  lemma IdAfterNext(first: nat, n: nat)
    requires first >= 1
    ensures IdAfter(first, n + 1) == NextId(IdAfter(first, n))
  {
    var m := first - 1 + n;
    assert m == m / U64_MAX * U64_MAX + m % U64_MAX;
    if m % U64_MAX + 1 == U64_MAX {
      assert m + 1 == (m / U64_MAX + 1) * U64_MAX;
    } else {
      assert m + 1 == m / U64_MAX * U64_MAX + (m % U64_MAX + 1);
    }
  }

  /** No two of the next 2^64 - 1 requests of a session share an id. */
  lemma IdsDiffer(first: nat, j: nat, k: nat)
    requires first >= 1 && j < k < j + U64_MAX
    ensures IdAfter(first, j) != IdAfter(first, k)
  {
    var m, n := first - 1 + j, first - 1 + k;
    assert m == m / U64_MAX * U64_MAX + m % U64_MAX && n == n / U64_MAX * U64_MAX + n % U64_MAX;
  }

  datatype Event = Sent(id: nat) | Settled(id: nat)

  // A request with each of these ids, settled before the next.
  ghost function Turns(ids: seq<nat>): seq<Event> {
    if |ids| == 0 then [] else Turns(ids[..|ids| - 1]) + [Sent(ids[|ids| - 1]), Settled(ids[|ids| - 1])]
  }

  // Every command is settled before the next one is sent.
  ghost predicate LockStep(events: seq<Event>) {
    var n := |events|;
    n == 0 || (n >= 2 && events[n - 2].Sent? && events[n - 1] == Settled(events[n - 2].id) && LockStep(events[..n - 2]))
  }

  lemma LockStepMore(events: seq<Event>, id: nat)
    requires LockStep(events)
    ensures LockStep(events + [Sent(id), Settled(id)])
  {
    assert (events + [Sent(id), Settled(id)])[..|events|] == events;
  }

  // A JSON encoding: one line per frame, read back as it was written.
  ghost predicate Codec(encode: Frame -> seq<byte>, decode: seq<byte> -> Frame) {
    forall f :: decode(encode(f)) == f && LF !in encode(f) && !(|encode(f)| > 0 && encode(f)[|encode(f)| - 1] == CR)
  }

  // A line that arrives whole is one frame, and trimming it gives back what was encoded.
  lemma LineReadBack(encode: Frame -> seq<byte>, decode: seq<byte> -> Frame, f: Frame)
    requires Codec(encode, decode)
    ensures FirstFrame(encode(f) + [LF]) == encode(f) + [LF] && decode(TrimLineEnding(encode(f) + [LF])) == f
  {
    assert decode(encode(f)) == f;
    FirstFrameLine(encode(f), []);
    assert encode(f) + [LF] + [] == encode(f) + [LF];
    TrimIsInverseIff(encode(f));
  }

  // Bytes as they may arrive: cut into pieces anywhere.
  method Cut(bytes: seq<byte>) returns (pieces: seq<seq<byte>>)
    ensures Flatten(pieces) == bytes && forall k :: 0 <= k < |pieces| ==> |pieces[k]| > 0
  {
    pieces := [];
    var rest := bytes;
    while |rest| > 0
      invariant rest <= bytes
      invariant Flatten(pieces) == bytes[|rest|..]
      invariant forall k :: 0 <= k < |pieces| ==> |pieces[k]| > 0
      decreases |rest|
    {
      var at: nat :| at < |rest|;
      FlattenMore(rest[at..], pieces);
      assert rest[at..] + bytes[|rest|..] == bytes[at..];
      pieces, rest := [rest[at..]] + pieces, rest[..at];
    }
  }

  /** One session over a byte stream. `served` is what the agent did, command by command; an
      `honest` agent answers each request once, with its id and its result, on a line of its
      own, in whatever pieces it arrives. */
  class Connection {
    const honest: bool
    const maximum: nat
    const encode: Frame -> seq<byte>
    const decode: seq<byte> -> Frame
    const reader: Reader
    var nextId: nat
    var open: bool
    var requests: seq<Request>
    ghost var served: seq<(Request, Body)>
    ghost var events: seq<Event>

    ghost predicate Valid()
      reads this, reader
    {
      && reader.Valid() && Codec(encode, decode)
      && 1 <= nextId <= U64_MAX
      && LockStep(events)
      && (open && honest ==> requests == [] && reader.chunks == [])
    }

    constructor (honest: bool, maximum: nat, encode: Frame -> seq<byte>, decode: seq<byte> -> Frame)
      requires Codec(encode, decode)
      ensures Valid() && open && this.honest == honest && events == [] && served == [] && fresh(reader)
    {
      this.honest, this.maximum, this.encode, this.decode := honest, maximum, encode, decode;
      reader := new Reader([]);
      nextId, open, requests := 1, true, [];
      served, events := [], [];
    }

    // The line that answers request `id`.
    function Line(id: nat, body: Body): seq<byte> {
      encode(Response(true, id, body)) + [LF]
    }

    // The agent executes what it was sent, and answers; a dishonest one sends any bytes.
    method AgentWorks(calm: bool)
      requires reader.Valid() && (honest ==> |requests| == 1 && reader.chunks == [])
      modifies `requests, `served, reader
      ensures reader.Valid()
      ensures honest ==>
        || (requests == old(requests) && reader.chunks == [] && served == old(served))
        || (requests == [] && |served| == |old(served)| + 1 && served[..|old(served)|] == old(served)
            && served[|old(served)|].0 == old(requests)[0] && !served[|old(served)|].1.Neither?
            && Flatten(reader.chunks) == Line(old(requests)[0].id, served[|old(served)|].1))
      ensures calm && honest ==> requests == []
    {
      var idle: bool := *;
      if idle && !calm {
        return;
      }
      if honest {
        var body: Body := *;
        if body.Neither? {
          body := Good(0);
        }
        var pieces := Cut(Line(requests[0].id, body));
        reader.chunks := pieces;
        served, requests := served + [(requests[0], body)], [];
      } else {
        var bytes: seq<byte> := *;
        var pieces := Cut(bytes);
        reader.chunks := reader.chunks + pieces;
      }
    }

    // `read_wire_response` and what is made of it.
    method ReadReply(id: nat) returns (r: Result<nat, CallError>)
      requires reader.Valid()
      modifies reader
      ensures reader.Valid()
      ensures old(reader.chunks) == [] ==> r == Err(Disconnected)
      ensures r.Ok? || (r.Err? && r.error.Remote?) ==>
        r == Verdict(decode(TrimLineEnding(FirstFrame(old(Flatten(reader.chunks))))), id)
      ensures forall body :: Codec(encode, decode) && old(Flatten(reader.chunks)) == Line(id, body) ==>
        && reader.chunks == []
        && r == if |Line(id, body)| <= maximum then Verdict(Response(true, id, body), id) else Err(Protocol)
    {
      ghost var all := Flatten(reader.chunks);
      var frame := reader.ReadFrame(maximum);
      if frame.Err? {
        reader.chunks := [];
        r := Err(Protocol);
      } else if |frame.value| == 0 {
        r := Err(Disconnected);
      } else {
        r := Verdict(decode(TrimLineEnding(frame.value)), id);
      }
      forall body | Codec(encode, decode) && all == Line(id, body)
        ensures reader.chunks == [] && r == if |Line(id, body)| <= maximum then Verdict(Response(true, id, body), id)
            else Err(Protocol)
      {
        LineReadBack(encode, decode, Response(true, id, body));
        NothingLeft(reader.chunks);
      }
    }

    // The agent's answer reaches the caller if its line is not too long.
    ghost predicate Passed(entry: (Request, Body), r: Result<nat, CallError>) {
      if |Line(entry.0.id, entry.1)| <= maximum then Tells(r, entry.1) else r == Err(Protocol)
    }

    // What an honest agent's work on the request shows in `r`.
    ghost predicate Shown(before: seq<(Request, Body)>, after: seq<(Request, Body)>, request: Request,
        r: Result<nat, CallError>, calm: bool) {
      && (after == before || (|after| == |before| + 1 && after[..|before|] == before && after[|before|].0 == request))
      && (r.Ok? ==> |after| > |before| && after[|before|].1 == Good(r.value))
      && (!Unusable(r) ==> |after| > |before|)
      && (calm ==> |after| > |before| && !after[|before|].1.Neither? && Passed(after[|before|], r))
    }

    twostate predicate Faithful(request: Request, new r: Result<nat, CallError>, calm: bool)
      reads this, reader
    {
      Shown(old(served), served, request, r, calm) && (!Unusable(r) ==> requests == [] && reader.chunks == [])
    }

    // The answers to the first commands, next to what was sent and what the agent did.
    ghost predicate Story(first: nat, ids: seq<nat>, commands: seq<nat>, work: seq<(Request, Body)>,
        answers: seq<Result<nat, CallError>>, calm: bool)
      requires first >= 1
    {
      && |answers| <= |commands| && |ids| == |answers|
      && (forall k :: 0 <= k < |ids| ==> ids[k] == IdAfter(first, k))
      && (forall k :: 0 <= k < |answers| - 1 ==> !Unusable(answers[k]))
      && (honest ==> forall k :: 0 <= k < |answers| && answers[k].Ok? ==>
            k < |work| && work[k].0.command == commands[k] && work[k].1 == Good(answers[k].value))
      && (honest && calm ==> |work| == |answers|)
      && (honest && calm ==> forall k :: 0 <= k < |answers| ==>
            && work[k].0 == Request(IdAfter(first, k), commands[k])
            && !work[k].1.Neither? && Passed(work[k], answers[k]))
    }

    lemma OnlyTooLong(entry: (Request, Body), r: Result<nat, CallError>)
      requires Passed(entry, r) && !entry.1.Neither? && Unusable(r)
      ensures |Line(entry.0.id, entry.1)| > maximum
    {
      assert entry.1.Good? ==> entry.1 == Good(entry.1.value);
      assert entry.1.Bad? ==> entry.1 == Bad(entry.1.code);
    }

    lemma StoryMore(first: nat, ids: seq<nat>, commands: seq<nat>, work: seq<(Request, Body)>,
        answers: seq<Result<nat, CallError>>, work': seq<(Request, Body)>, r: Result<nat, CallError>, calm: bool)
      requires first >= 1 && Story(first, ids, commands, work, answers, calm) && |answers| < |commands|
      requires |answers| > 0 ==> !Unusable(answers[|answers| - 1])
      requires honest ==> |work| == |answers|
      requires honest ==> Shown(work, work', Request(IdAfter(first, |answers|), commands[|answers|]), r, calm)
      ensures Story(first, ids + [IdAfter(first, |ids|)], commands, work', answers + [r], calm)
    {
      assert honest ==> forall k :: 0 <= k < |work| ==> work'[k] == work[k] by {
        assert honest ==> forall k :: 0 <= k < |work| ==> work'[k] == work'[..|work|][k];
      }
    }

    // The request goes out, and at most one frame comes in.
    method Exchange(request: Request, calm: bool) returns (r: Result<nat, CallError>)
      requires reader.Valid() && Codec(encode, decode) && (honest ==> requests == [] && reader.chunks == [])
      modifies `requests, `served, reader
      ensures reader.Valid() && (honest ==> Faithful(request, r, calm))
    {
      requests := requests + [request];
      AgentWorks(calm);
      var late: bool := *;
      if late && !calm {
        return Err(Timeout);
      }
      r := ReadReply(request.id);
    }

    /** One turn of the session loop, from the request written to the frame read: the caller
        gets the answer to its own command or an error, however the bytes are cut, and after an
        error that leaves the stream in doubt the session is over. */
    method Perform(command: nat, calm: bool) returns (r: Result<nat, CallError>, ghost id: nat)
      requires Valid() && open
      modifies this, reader
      ensures Valid() && events == old(events) + [Sent(id), Settled(id)] && id == old(nextId)
      ensures nextId == NextId(id)
      ensures open <==> !Unusable(r)
      ensures honest ==> Faithful(Request(id, command), r, calm)
    {
      id := nextId;
      var current := nextId;
      nextId := NextId(current);
      events := events + [Sent(id)];
      r := Exchange(Request(current, command), calm);
      open := !Unusable(r);
      events := events + [Settled(id)];
      assert events == old(events) + [Sent(id), Settled(id)];
      LockStepMore(old(events), id);
    }

    /** The session over a queue of commands: answers in order, nothing sent after the session
        broke, and every success is the agent's own result for that very command. Undisturbed,
        an honest agent's queue is answered to its end unless one of its lines is too long, and
        every answer tells what the agent said. Each request has the next id. */
    method Run(commands: seq<nat>, calm: bool) returns (answers: seq<Result<nat, CallError>>, ghost ids: seq<nat>)
      requires Valid() && open && served == []
      modifies this, reader
      ensures Valid() && events == old(events) + Turns(ids)
      ensures Story(old(nextId), ids, commands, served, answers, calm)
      ensures |answers| < |commands| ==> |answers| > 0 && Unusable(answers[|answers| - 1])
      ensures honest && calm && |answers| < |commands| ==>
                var (request, body) := served[|answers| - 1]; |Line(request.id, body)| > maximum
    {
      answers, ids := [], [];
      while |answers| < |commands| && open
        invariant Valid() && events == old(events) + Turns(ids) && nextId == IdAfter(old(nextId), |ids|)
        invariant Story(old(nextId), ids, commands, served, answers, calm)
        invariant |answers| > 0 ==> (open <==> !Unusable(answers[|answers| - 1]))
        invariant |answers| == 0 ==> open
        invariant honest && open ==> |served| == |answers|
        decreases |commands| - |answers|
      {
        ghost var before := served;
        var r, id := Perform(commands[|answers|], calm);
        StoryMore(old(nextId), ids, commands, before, answers, served, r, calm);
        IdAfterNext(old(nextId), |ids|);
        assert (ids + [id])[..|ids|] == ids;
        answers, ids := answers + [r], ids + [id];
      }
      if honest && calm && |answers| < |commands| {
        OnlyTooLong(served[|answers| - 1], answers[|answers| - 1]);
      }
    }
  }

  lemma NothingLeft(chunks: seq<seq<byte>>)
    requires forall k :: 0 <= k < |chunks| ==> |chunks[k]| > 0
    ensures Flatten(chunks) == [] ==> chunks == []
  {}

  // ------------------------------------------------------------- the registry

  // A connection registers once and, when it ends, takes only itself away.
  datatype Change = Register(session: nat) | Unregister(session: nat)

  function Entry(changes: seq<Change>): Option<nat> {
    if |changes| == 0 then None
    else
      var before := Entry(changes[..|changes| - 1]);
      match changes[|changes| - 1]
      case Register(s) => Some(s)
      case Unregister(s) => if before == Some(s) then None else before
  }

  lemma EntryMore(changes: seq<Change>, change: Change)
    ensures Entry(changes + [change]) ==
            if change.Register? then Some(change.session)
                else if Entry(changes) == Some(change.session) then None else Entry(changes)
  {
    assert (changes + [change])[..|changes|] == changes;
  }

  // Connection `changes[k]` is the newest, and it has not ended.
  ghost predicate NewestAlive(changes: seq<Change>, k: nat) {
    && k < |changes| && changes[k].Register?
    && forall m :: k < m < |changes| ==> changes[m].Unregister? && changes[m].session != changes[k].session
  }

  lemma {:induction false} NewestIsEntry(changes: seq<Change>, k: nat)
    requires NewestAlive(changes, k)
    ensures Entry(changes) == Some(changes[k].session)
  {
    var n := |changes| - 1;
    if k < n {
      assert NewestAlive(changes[..n], k);
      NewestIsEntry(changes[..n], k);
      assert changes[n].Unregister?;
    }
  }

  lemma {:induction false} EntryIsNewest(changes: seq<Change>) returns (k: nat)
    requires Entry(changes).Some?
    ensures NewestAlive(changes, k) && changes[k].session == Entry(changes).value
  {
    var n := |changes| - 1;
    if changes[n].Register? {
      k := n;
    } else {
      k := EntryIsNewest(changes[..n]);
      forall m | k < m < |changes| ensures changes[m].Unregister? && changes[m].session != changes[k].session {
        assert m < n ==> changes[m] == changes[..n][m];
      }
    }
  }

  /** However connections overlap, an agent is reachable through its newest connection, and
      exactly as long as that one lasts: a stale one ending later does not unseat it. */
  lemma RegistryIsNewest(changes: seq<Change>, s: nat)
    ensures Entry(changes) == Some(s) <==> exists k: nat :: NewestAlive(changes, k) && changes[k].session == s
  {
    if Entry(changes).Some? {
      var k := EntryIsNewest(changes);
      assert NewestAlive(changes, k);
    }
    forall k: nat | NewestAlive(changes, k) ensures Entry(changes) == Some(changes[k].session) {
      NewestIsEntry(changes, k);
    }
  }

  /** `AgentRegistry`; `history` is everything that happened to each agent's entry. */
  class Registry {
    var sessions: map<nat, nat>
    ghost var history: map<nat, seq<Change>>

    ghost function Changes(agent: nat): seq<Change>
      reads this
    {
      if agent in history then history[agent] else []
    }

    function Lookup(agent: nat): Option<nat>
      reads this
    {
      if agent in sessions then Some(sessions[agent]) else None
    }

    ghost predicate Valid()
      reads this
    {
      forall agent :: Lookup(agent) == Entry(Changes(agent))
    }

    constructor ()
      ensures Valid() && forall agent :: Changes(agent) == []
    {
      sessions, history := map[], map[];
    }

    method Register(agent: nat, session: nat)
      requires Valid()
      modifies this
      ensures Valid() && Changes(agent) == old(Changes(agent)) + [Change.Register(session)]
      ensures forall other ::
          other != agent ==> Changes(other) == old(Changes(other)) && Lookup(other) == old(Lookup(other))
      ensures Lookup(agent) == Some(session)
    {
      EntryMore(Changes(agent), Change.Register(session));
      sessions := sessions[agent := session];
      history := history[agent := Changes(agent) + [Change.Register(session)]];
      forall other ensures Lookup(other) == Entry(Changes(other)) {
        assert old(Lookup(other)) == old(Entry(Changes(other)));
      }
    }

    method Unregister(agent: nat, session: nat)
      requires Valid()
      modifies this
      ensures Valid() && Changes(agent) == old(Changes(agent)) + [Change.Unregister(session)]
      ensures forall other ::
          other != agent ==> Changes(other) == old(Changes(other)) && Lookup(other) == old(Lookup(other))
      ensures Lookup(agent) == (if old(Lookup(agent)) == Some(session) then None else old(Lookup(agent)))
    {
      EntryMore(Changes(agent), Change.Unregister(session));
      if agent in sessions && sessions[agent] == session {
        sessions := sessions - {agent};
      }
      history := history[agent := Changes(agent) + [Change.Unregister(session)]];
      forall other ensures Lookup(other) == Entry(Changes(other)) {
        assert old(Lookup(other)) == old(Entry(Changes(other)));
      }
    }
  }
}
