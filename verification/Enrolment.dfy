/** Certificate enrolment as the control plane handles it: any number of
    requests for one compute row, interleaved at every database access. */
module Enrolment {
  import opened Domain

  // A signing request is bound to a private key; making it again gives another one.
  datatype Csr = Csr(key: nat, nonce: nat)

  // A certificate chain is bound to the request it was signed for.
  datatype Chain = Chain(csr: Csr, serial: nat)

  // The credential columns of an Akamai compute row.
  datatype Row = Row(connection: nat, enrolment: Option<nat>, csr: Option<Csr>, chain: Option<Chain>, active: bool)

  datatype Answer = Answer(chain: Chain, connection: nat)

  ghost predicate RowOk(row: Row) {
    row.csr.Some? == row.chain.Some? && (row.chain.Some? ==> row.chain.value.csr == row.csr.value)
  }

  // `get_agent_enrollment`: does the row answer to this enrolment token?
  predicate Open(row: Row, token: nat) {
    row.active && row.enrolment == Some(token)
  }

  // `record_agent_certificate`
  function Recorded(row: Row, token: nat, chain: Chain): Row {
    if Open(row, token) && row.csr.None? then row.(csr := Some(chain.csr), chain := Some(chain)) else row
  }

  // `authenticate_agent` for a machine with a certificate.
  predicate Admits(row: Row, connection: nat, chain: Chain) {
    row.active && row.connection == connection && row.chain == Some(chain)
  }

  // Secrets never change, a request once recorded stays, and nothing reopens.
  ghost predicate Later(row: Row, row': Row) {
    && row'.connection == row.connection
    && (row.csr.Some? ==> row'.csr == row.csr && row'.chain == row.chain)
    && (row'.enrolment.Some? ==> row'.enrolment == row.enrolment)
    && (row'.active ==> row.active)
  }

  ghost predicate Agrees(row: Row, a: Answer) {
    row.chain == Some(a.chain) && row.connection == a.connection
  }

  /** The row; the successful answers decided so far, by request; the requests whose answer
      has been written to their client; and whether an Akamai registration was accepted. */
  datatype Moment = Moment(row: Row, decided: map<nat, Answer>, written: set<nat>, registered: bool)

  // One database access of request `q`, the writing of its answer, or somebody else's step.
  datatype Event =
    | Record(q: nat, token: nat, chain: Chain)
    | Match(q: nat, token: nat, csr: Csr)
    | Write(q: nat)
    | Register(connection: nat, chain: Chain)
    | Terminate

  // A client registers with what some request of its has been answered.
  predicate Sent(m: Moment, a: Answer) {
    exists q :: q in m.written && q in m.decided && m.decided[q] == a
  }

  // A request is decided once, and its answer written once, after that.
  predicate Possible(m: Moment, e: Event) {
    match e
    case Record(q, _, _) => q !in m.decided
    case Match(q, _, _) => q !in m.decided
    case Write(q) => q in m.decided && q !in m.written
    case Register(connection, chain) => Sent(m, Answer(chain, connection))
    case Terminate => true
  }

  function Act(m: Moment, e: Event): Moment {
    match e
    case Record(q, token, chain) =>
      if Open(m.row, token) && m.row.csr.None? then
        m.(row := Recorded(m.row, token, chain), decided := m.decided[q := Answer(chain, m.row.connection)])
      else m
    case Match(q, token, csr) =>
      if Open(m.row, token) && m.row.csr == Some(csr) && m.row.chain.Some? then
        m.(decided := m.decided[q := Answer(m.row.chain.value, m.row.connection)])
      else m
    case Write(q) => m.(written := m.written + {q})
    case Register(connection, chain) =>
      if Admits(m.row, connection, chain) then m.(row := m.row.(enrolment := None), registered := true) else m
    case Terminate => m.(row := m.row.(active := false))
  }

  ghost predicate Fresh(m: Moment) {
    && m.row == Row(m.row.connection, m.row.enrolment, None, None, true) && m.row.enrolment.Some?
    && m == Moment(m.row, map[], {}, false)
  }

  ghost predicate StepAt(ms: seq<Moment>, es: seq<Event>, k: nat)
    requires k < |es| < |ms|
  {
    Possible(ms[k], es[k]) && ms[k + 1] == Act(ms[k], es[k])
  }

  // Any interleaving of any number of requests, registrations and the reconciler.
  ghost predicate Run(ms: seq<Moment>, es: seq<Event>) {
    |ms| == |es| + 1 && Fresh(ms[0]) && forall k :: 0 <= k < |es| ==> StepAt(ms, es, k)
  }

  ghost predicate Consistent(m: Moment) {
    && RowOk(m.row) && m.written <= m.decided.Keys
    && (forall q :: q in m.decided ==> Agrees(m.row, m.decided[q]))
    && (m.registered ==> m.row.enrolment.None?)
    && (m.row.enrolment.None? ==> m.written != {})
  }

  // From one moment to any later one.
  ghost predicate Onward(m: Moment, m': Moment) {
    && Later(m.row, m'.row) && m.written <= m'.written && (m.registered ==> m'.registered)
    && (forall q :: q in m.decided ==> q in m'.decided && m'.decided[q] == m.decided[q])
    && (m.row.enrolment.None? ==> m'.decided == m.decided)
  }

  lemma ActKeeps(m: Moment, e: Event)
    requires Consistent(m) && Possible(m, e)
    ensures Consistent(Act(m, e)) && Onward(m, Act(m, e))
  {}

  lemma {:induction false} RunIsConsistent(ms: seq<Moment>, es: seq<Event>, k: nat)
    requires Run(ms, es) && k < |ms|
    ensures Consistent(ms[k])
  {
    if k > 0 {
      RunIsConsistent(ms, es, k - 1);
      assert StepAt(ms, es, k - 1);
      ActKeeps(ms[k - 1], es[k - 1]);
    }
  }

  lemma {:induction false} RunGoesOnward(ms: seq<Moment>, es: seq<Event>, j: nat, k: nat)
    requires Run(ms, es) && j <= k < |ms|
    ensures Onward(ms[j], ms[k])
  {
    if j < k {
      RunGoesOnward(ms, es, j, k - 1);
      RunIsConsistent(ms, es, k - 1);
      assert StepAt(ms, es, k - 1);
      ActKeeps(ms[k - 1], es[k - 1]);
    }
  }

  /** Enrolment agreement: all successful answers of a run are one and the same. */
  lemma EnrolmentAgreement(ms: seq<Moment>, es: seq<Event>, j: nat, k: nat, p: nat, q: nat)
    requires Run(ms, es) && j <= k < |ms| && p in ms[j].written && q in ms[k].written
    ensures p in ms[j].decided && q in ms[k].decided && ms[j].decided[p] == ms[k].decided[q]
    ensures ms[k].row.csr == Some(ms[k].decided[q].chain.csr) && ms[k].decided[q].connection == ms[0].row.connection
  {
    RunIsConsistent(ms, es, j);
    RunIsConsistent(ms, es, k);
    RunGoesOnward(ms, es, j, k);
    RunGoesOnward(ms, es, 0, k);
  }

  // What a sequence of further events makes of a moment.
  ghost function Play(m: Moment, es: seq<Event>): Moment
    decreases |es|
  {
    if |es| == 0 then m else Play(Act(m, es[0]), es[1..])
  }

  ghost predicate Playable(m: Moment, es: seq<Event>)
    decreases |es|
  {
    |es| == 0 || (Possible(m, es[0]) && Playable(Act(m, es[0]), es[1..]))
  }

  lemma PlayOne(m: Moment, e: Event)
    requires Possible(m, e)
    ensures Playable(m, [e]) && Play(m, [e]) == Act(m, e)
  {
    assert [e][1..] == [];
    assert Playable(Act(m, e), []) && Play(Act(m, e), []) == Act(m, e);
  }

  lemma {:induction false} PlayedOnward(m: Moment, es: seq<Event>)
    requires Consistent(m) && Playable(m, es)
    ensures Consistent(Play(m, es)) && Onward(m, Play(m, es))
    decreases |es|
  {
    if |es| > 0 {
      ActKeeps(m, es[0]);
      PlayedOnward(Act(m, es[0]), es[1..]);
    }
  }

  // Request `q` gets its answer only after moment `m`.
  ghost predicate WrittenLater(m: Moment, q: nat) {
    q !in m.written && exists more: seq<Event> :: Playable(m, more) && q in Play(m, more).written
  }

  /** After an accepted registration a request can still get its answer if and only if it had
      been decided, and its answer not been written, before. */
  lemma WrittenAfterRegistrationIff(ms: seq<Moment>, es: seq<Event>, j: nat, q: nat)
    requires Run(ms, es) && j < |ms| && ms[j].registered
    ensures WrittenLater(ms[j], q) <==> q in ms[j].decided && q !in ms[j].written
  {
    RunIsConsistent(ms, es, j);
    if q in ms[j].decided && q !in ms[j].written {
      PlayOne(ms[j], Write(q));
    }
    forall more: seq<Event> | Playable(ms[j], more) && q in Play(ms[j], more).written ensures q in ms[j].decided {
      PlayedOnward(ms[j], more);
    }
  }

  /** So no request that is decided, let alone begun, after the registration succeeds. */
  lemma NoneDecidedAfterRegistration(ms: seq<Moment>, es: seq<Event>, j: nat, k: nat, q: nat)
    requires Run(ms, es) && j <= k < |ms| && ms[j].registered && q !in ms[j].decided
    ensures q !in ms[k].decided && q !in ms[k].written
  {
    RunIsConsistent(ms, es, j);
    RunIsConsistent(ms, es, k);
    RunGoesOnward(ms, es, j, k);
  }

  // Requests 1 and 2 race: 1 records, 2 finds the record and is answered, its client registers,
  // and only then is 1 answered.
  lemma LateAnswer() returns (ms: seq<Moment>, es: seq<Event>)
    ensures Run(ms, es) && |es| == 5 && ms[4].registered && 1 !in ms[4].written && 1 in ms[5].written
  {
    var chain := Chain(Csr(1, 1), 1);
    es := [Record(1, 6, chain), Match(2, 6, Csr(1, 1)), Write(2), Register(5, chain), Write(1)];
    var m0 := Moment(Row(5, Some(6), None, None, true), map[], {}, false);
    var m1 := Act(m0, es[0]);
    var m2 := Act(m1, es[1]);
    var m3 := Act(m2, es[2]);
    var m4 := Act(m3, es[3]);
    ms := [m0, m1, m2, m3, m4, Act(m4, es[4])];
    assert 2 in m3.written && m3.decided[2] == Answer(chain, 5);
    forall k | 0 <= k < |es| ensures StepAt(ms, es, k) {}
  }

  /** The endpoint of one compute row; `ms` and `es` record the run. */
  class Endpoint {
    var m: Moment
    ghost var ms: seq<Moment>
    ghost var es: seq<Event>

    ghost predicate Valid()
      reads this
    {
      Run(ms, es) && ms[|es|] == m
    }

    constructor (connection: nat, token: nat)
      ensures Valid() && m == Moment(Row(connection, Some(token), None, None, true), map[], {}, false)
    {
      m := Moment(Row(connection, Some(token), None, None, true), map[], {}, false);
      ms, es := [Moment(Row(connection, Some(token), None, None, true), map[], {}, false)], [];
    }

    method Do(e: Event)
      requires Valid() && Possible(m, e)
      modifies this
      ensures Valid() && m == Act(old(m), e) && Consistent(m) && Onward(old(m), m)
    {
      RunIsConsistent(ms, es, |es|);
      ActKeeps(m, e);
      m := Act(m, e);
      ghost var ms', es' := ms + [m], es + [e];
      forall k | 0 <= k < |es'| ensures StepAt(ms', es', k) {
        if k < |es| {
          assert StepAt(ms, es, k);
        }
      }
      ms, es := ms', es';
    }

    // Other requests, registrations and the reconciler, one access at a time.
    method Interfere(own: nat, calm: bool)
      requires Valid()
      modifies this
      ensures Valid() && Onward(old(m), m) && Consistent(m)
      ensures own in m.decided <==> own in old(m.decided)
      ensures own in m.written <==> own in old(m.written)
      ensures calm ==> m == old(m)
    {
      RunIsConsistent(ms, es, |es|);
      if calm {
        return;
      }
      var n: nat :| true;
      while n > 0
        invariant Valid() && Onward(old(m), m) && Consistent(m)
        invariant own in m.decided <==> own in old(m.decided)
        invariant own in m.written <==> own in old(m.written)
      {
        var e: Event := *;
        if Possible(m, e) && !((e.Record? || e.Match? || e.Write?) && e.q == own) {
          Do(e);
        }
        n := n - 1;
      }
    }

    /** `handle_enrollment` for request `q`: whoever asks, whenever, gets the one certificate of
        the row or nothing. A request that starts once the enrolment token is used up gets
        nothing. Undisturbed, exactly the first signing request and its repetitions are
        answered. */
    method HandleEnrolment(q: nat, token: nat, csr: Csr, calm: bool) returns (r: Option<Answer>)
      requires Valid() && q !in m.decided && q !in m.written
      modifies this
      ensures Valid() && Onward(old(m), m)
      ensures r.Some? ==> q in m.written && q in m.decided && m.decided[q] == r.value
      ensures r.Some? ==> Agrees(m.row, r.value) && r.value.chain.csr == csr
      ensures r.Some? ==> old(m.row.enrolment) == Some(token)
      ensures r.None? ==> q !in m.written
      ensures old(m.registered) ==> r.None?
      ensures calm ==> (r.Some? <==> Open(old(m.row), token) && (old(m.row.csr).None? || old(m.row.csr) == Some(csr)))
    {
      RunIsConsistent(ms, es, |es|);
      Interfere(q, calm);
      var enrolment := m.row;
      if !Open(enrolment, token) {
        return None;
      }
      if enrolment.csr.Some? {
        if enrolment.csr.value != csr {
          return None;
        }
        Do(Match(q, token, csr));
        r := Some(Answer(enrolment.chain.value, enrolment.connection));
      } else {
        r := Sign(q, token, csr, enrolment.connection, calm);
        if r.None? {
          return;
        }
      }
      Interfere(q, calm);
      Do(Write(q));
    }

    // Sign, record unless somebody was faster, and otherwise take what is on record.
    method Sign(q: nat, token: nat, csr: Csr, connection: nat, calm: bool) returns (r: Option<Answer>)
      requires Valid() && m.row.connection == connection && q !in m.decided && q !in m.written
      modifies this
      ensures Valid() && Onward(old(m), m) && q !in m.written
      ensures r.Some? ==> q in m.decided && m.decided[q] == r.value && r.value.chain.csr == csr
      ensures r.Some? ==> old(m.row.enrolment) == Some(token)
      ensures calm && Open(old(m.row), token) && old(m.row.csr).None? ==> r.Some?
    {
      Interfere(q, calm);
      var serial: nat :| true;
      var signed := Chain(csr, serial);
      var recorded := Open(m.row, token) && m.row.csr.None?;
      Do(Record(q, token, signed));
      if recorded {
        return Some(Answer(signed, connection));
      }
      Interfere(q, calm);
      var existing := m.row;
      if !Open(existing, token) || existing.csr != Some(csr) {
        return None;
      }
      Do(Match(q, token, csr));
      return Some(Answer(existing.chain.value, existing.connection));
    }
  }
}
