/** The credentials on a remote machine's disk, and whether the machine can
    always get back in.

    A file is written under a temporary name, synced, renamed into place, and
    then its directory is synced. A process crash keeps what was renamed; a
    power loss keeps what was synced, and of the rest whatever happened to
    reach the disk. Requests already sent may reach the control plane at any
    later time. Certificates are taken to be unexpired. */
module Credentials {
  import opened Domain
  import opened Enrolment

  datatype Files = Files(key: Option<nat>, csr: Option<Csr>, cert: Option<Chain>, token: Option<nat>)

  const EMPTY := Files(None, None, None, None)

  /** What is visible on the disk and what is synced, the compute row, the enrolments and
      registrations that may still arrive, and the enrolment token the machine was born with. */
  datatype Situation = Situation(
    disk: Files,
    durable: Files,
    row: Row,
    sent: set<Csr>,
    offered: set<(nat, Chain)>,
    bootstrap: nat)

  // ------------------------------------------------------- getting back in

  // `stable_client_credentials_exist`
  predicate Stable(f: Files) {
    f.token.Some? && f.key.Some? && f.cert.Some?
  }

  // The stored key, certificate and token open a session.
  ghost predicate Matches(f: Files, row: Row) {
    Stable(f) && f.token.value == row.connection && row.chain == f.cert && f.cert.value.csr.key == f.key.value
  }

  // Enrolling again, with the stored request if there is one, succeeds.
  ghost predicate CanEnrol(f: Files, row: Row) {
    && row.enrolment.Some? && !Stable(f)
    && (f.csr.Some? ==> f.key == Some(f.csr.value.key))
    && (row.csr.Some? ==> f.csr == row.csr)
  }

  ghost predicate Recoverable(f: Files, row: Row) {
    Matches(f, row) || CanEnrol(f, row)
  }

  // The files say nothing false about the row.
  ghost predicate Truthful(f: Files, row: Row) {
    && RowOk(row)
    && (f.cert.Some? ==> row.chain == f.cert)
    && (f.token.Some? ==> f.token.value == row.connection)
    && (f.csr.Some? ==> f.key == Some(f.csr.value.key) && (row.csr.Some? ==> f.csr == row.csr))
  }

  // What is under way was sent from files that are there.
  ghost predicate FlightOk(f: Files, row: Row, sent: set<Csr>, offered: set<(nat, Chain)>) {
    && (row.active ==> forall c :: c in sent ==> f.csr == Some(c) || row.csr.Some?)
    && (row.active && offered != {} ==> Stable(f))
    && (forall o :: o in offered ==> o.0 == row.connection && row.chain == Some(o.1))
  }

  ghost predicate Synced<T>(durable: Option<T>, disk: Option<T>) {
    durable.Some? ==> durable == disk
  }

  // Files are only ever added.
  ghost predicate Behind(durable: Files, disk: Files) {
    && Synced(durable.key, disk.key) && Synced(durable.csr, disk.csr)
    && Synced(durable.cert, disk.cert) && Synced(durable.token, disk.token)
  }

  ghost predicate Sound(s: Situation) {
    && Truthful(s.disk, s.row) && Recoverable(s.disk, s.row) && FlightOk(s.disk, s.row, s.sent, s.offered)
    && Behind(s.durable, s.disk) && (s.row.enrolment.Some? ==> s.row.enrolment.value == s.bootstrap)
  }

  // ------------------------------------------------------------------ steps

  // A request the control plane gets to.
  datatype Delivery = Enrolled(chain: Chain) | Registered(connection: nat, chain: Chain)

  predicate Pending(s: Situation, d: Delivery) {
    match d
    case Enrolled(chain) => chain.csr in s.sent
    case Registered(connection, chain) => (connection, chain) in s.offered
  }

  function Deliver(row: Row, bootstrap: nat, d: Delivery): Row {
    match d
    case Enrolled(chain) => Recorded(row, bootstrap, chain)
    case Registered(connection, chain) => if Admits(row, connection, chain) then row.(enrolment := None) else row
  }

  datatype Step =
    | NewKey(key: nat)
    | NewCsr(nonce: nat)
    | KeepCert
    | KeepToken
    | Sync
    | SendCsr
    | Offer
    | Arrive(d: Delivery)
    | EndCompute
    | PowerLoss(left: Files)

  predicate Survives<T(==)>(x: Option<T>, disk: Option<T>, durable: Option<T>) {
    x == disk || x == durable
  }

  // What may be on the disk after the power comes back.
  predicate Outcome(f: Files, disk: Files, durable: Files) {
    && Survives(f.key, disk.key, durable.key) && Survives(f.csr, disk.csr, durable.csr)
    && Survives(f.cert, disk.cert, durable.cert) && Survives(f.token, disk.token, durable.token)
  }

  // The request on the disk is the one on record, so its answer holds the row's certificate and token.
  predicate Answered(s: Situation) {
    s.row.csr.Some? && s.row.chain.Some? && s.disk.csr == s.row.csr
  }

  // What the agent has done before it takes the step.
  predicate CanStep(s: Situation, e: Step) {
    match e
    case NewKey(_) => !Stable(s.disk) && s.disk.key.None?
    case NewCsr(_) => !Stable(s.disk) && s.disk.key.Some? && s.disk.csr.None?
    case KeepCert => !Stable(s.disk) && Answered(s)
    case KeepToken => !Stable(s.disk) && Answered(s) && s.disk.cert == s.row.chain
    case Sync => true
    case SendCsr => !Stable(s.disk) && s.disk.csr.Some?
    case Offer => Stable(s.disk)
    case Arrive(d) => Pending(s, d)
    case EndCompute => true
    case PowerLoss(left) => Outcome(left, s.disk, s.durable)
  }

  function After(s: Situation, e: Step): Situation {
    match e
    case NewKey(key) => s.(disk := s.disk.(key := Some(key)))
    case NewCsr(nonce) =>
      if s.disk.key.Some? then s.(disk := s.disk.(csr := Some(Csr(s.disk.key.value, nonce)))) else s
    case KeepCert => s.(disk := s.disk.(cert := s.row.chain))
    case KeepToken => s.(disk := s.disk.(token := Some(s.row.connection)))
    case Sync => s.(durable := s.disk)
    case SendCsr => if s.disk.csr.Some? then s.(sent := s.sent + {s.disk.csr.value}) else s
    case Offer => if Stable(s.disk) then s.(offered := s.offered + {(s.disk.token.value, s.disk.cert.value)}) else s
    case Arrive(d) => s.(row := Deliver(s.row, s.bootstrap, d))
    case EndCompute => s.(row := s.row.(active := false))
    case PowerLoss(left) => s.(disk := left, durable := left)
  }

  function Born(connection: nat, bootstrap: nat): Situation {
    Situation(EMPTY, EMPTY, Row(connection, Some(bootstrap), None, None, true), {}, {}, bootstrap)
  }

  ghost predicate LifeStep(ss: seq<Situation>, es: seq<Step>, k: nat)
    requires k < |es| < |ss|
  {
    CanStep(ss[k], es[k]) && ss[k + 1] == After(ss[k], es[k])
  }

  // The whole life of a machine: crashes are the places where the agent's next step is an earlier one.
  ghost predicate Life(ss: seq<Situation>, es: seq<Step>) {
    && |ss| == |es| + 1 && ss[0] == Born(ss[0].row.connection, ss[0].bootstrap)
    && forall k :: 0 <= k < |es| ==> LifeStep(ss, es, k)
  }

  // ------------------------------------------------------------- power loss

  // What has to be synced, given what the row says and what may still arrive.
  predicate Secure(s: Situation) {
    || Stable(s.durable)
    || (&& s.row.enrolment.Some?
        && (s.disk.csr.Some? ==> s.durable.key.Some?)
        && (s.row.csr.Some? ==> s.durable.csr.Some?)
        && (s.row.active && s.row.csr.None? && s.sent != {} ==> s.durable.csr.Some?)
        && (s.row.active ==> s.offered == {}))
  }

  ghost function DeliverAll(row: Row, bootstrap: nat, ds: seq<Delivery>): Row {
    if |ds| == 0 then row else Deliver(DeliverAll(row, bootstrap, ds[..|ds| - 1]), bootstrap, ds[|ds| - 1])
  }

  ghost predicate AllPending(s: Situation, ds: seq<Delivery>) {
    forall k :: 0 <= k < |ds| ==> Pending(s, ds[k])
  }

  // Whatever the disk holds afterwards and whatever still arrives, the machine can get in.
  ghost predicate NeverLockedOut(s: Situation) {
    forall f, ds: seq<Delivery> :: Outcome(f, s.disk, s.durable) && AllPending(s, ds) ==>
      Recoverable(f, DeliverAll(s.row, s.bootstrap, ds))
  }

  /** A power loss never locks the machine out, now or when pending requests arrive, if and
      only if what matters is synced. */
  lemma PowerLossIff(s: Situation)
    requires Sound(s)
    ensures Secure(s) <==> NeverLockedOut(s)
  {
    if Secure(s) {
      forall f, ds: seq<Delivery> | Outcome(f, s.disk, s.durable) && AllPending(s, ds)
        ensures Recoverable(f, DeliverAll(s.row, s.bootstrap, ds))
      {
        SecureSurvives(s, f);
        ArrivalsKeep(s.(disk := f, durable := f), ds);
      }
    } else {
      InsecureLocksOut(s);
    }
  }

  lemma SecureSurvives(s: Situation, f: Files)
    requires Sound(s) && Secure(s) && Outcome(f, s.disk, s.durable)
    ensures Sound(s.(disk := f, durable := f))
  {}

  lemma ArrivalKeeps(s: Situation, d: Delivery)
    requires Sound(s) && Pending(s, d)
    ensures Sound(s.(row := Deliver(s.row, s.bootstrap, d)))
  {}

  lemma {:induction false} ArrivalsKeep(s: Situation, ds: seq<Delivery>)
    requires Sound(s) && AllPending(s, ds)
    ensures Sound(s.(row := DeliverAll(s.row, s.bootstrap, ds)))
  {
    if |ds| > 0 {
      ArrivalsKeep(s, ds[..|ds| - 1]);
      ArrivalKeeps(s.(row := DeliverAll(s.row, s.bootstrap, ds[..|ds| - 1])), ds[|ds| - 1]);
    }
  }

  // One arrival at most is needed to lock out a machine that is not secure.
  lemma InsecureLocksOut(s: Situation)
    requires Sound(s) && !Secure(s)
    ensures !NeverLockedOut(s)
  {
    var f, ds: seq<Delivery> := s.durable, [];
    if s.row.enrolment.Some? {
      if s.disk.csr.Some? && s.durable.key.None? {
        f := f.(csr := s.disk.csr);
      } else if s.row.active && s.offered != {} {
        var o :| o in s.offered;
        ds := [Registered(o.0, o.1)];
      } else if s.row.csr.None? {
        var c :| c in s.sent;
        ds := [Enrolled(Chain(c, 0))];
      }
    }
    DeliverFew(s.row, s.bootstrap, ds);
    assert Outcome(f, s.disk, s.durable) && AllPending(s, ds) && !Recoverable(f, DeliverAll(s.row, s.bootstrap, ds));
  }

  lemma DeliverFew(row: Row, bootstrap: nat, ds: seq<Delivery>)
    requires |ds| <= 1
    ensures DeliverAll(row, bootstrap, ds) == if |ds| == 0 then row else Deliver(row, bootstrap, ds[0])
  {
    if |ds| == 1 {
      assert DeliverAll(row, bootstrap, ds[..0]) == row;
    }
  }

  // --------------------------------------------------------------- all steps

  /** Whatever happens next, the machine can get in; a power loss is the only exception, and
      only where something that matters is not synced. */
  lemma StepKeeps(s: Situation, e: Step)
    requires Sound(s) && CanStep(s, e) && (e.PowerLoss? ==> Secure(s))
    ensures Sound(After(s, e))
  {
    match e
    case PowerLoss(left) => SecureSurvives(s, left);
    case Arrive(d) => ArrivalKeeps(s, d);
    case _ =>
  }

  // No power loss strikes while something that matters is not synced.
  ghost predicate Lucky(ss: seq<Situation>, es: seq<Step>) {
    |ss| == |es| + 1 && forall k :: 0 <= k < |es| ==> (es[k].PowerLoss? ==> Secure(ss[k]))
  }

  /** No credential lock-out: in every such life of a machine, at every moment, its files open a
      session or enrolling again succeeds. */
  lemma {:induction false} NoLockOut(ss: seq<Situation>, es: seq<Step>, k: nat)
    requires Life(ss, es) && Lucky(ss, es) && k < |ss|
    ensures Sound(ss[k]) && Recoverable(ss[k].disk, ss[k].row)
  {
    if k > 0 {
      NoLockOut(ss, es, k - 1);
      assert LifeStep(ss, es, k - 1);
      StepKeeps(ss[k - 1], es[k - 1]);
    }
  }

  lemma OneMore(ss: seq<Situation>, es: seq<Step>, e: Step) returns (ss': seq<Situation>, es': seq<Step>)
    requires Life(ss, es) && CanStep(ss[|es|], e)
    ensures ss' == ss + [After(ss[|es|], e)] && es' == es + [e] && Life(ss', es')
  {
    ss', es' := ss + [After(ss[|es|], e)], es + [e];
    forall k | 0 <= k < |es'| ensures LifeStep(ss', es', k) {
      if k < |es| {
        assert LifeStep(ss, es, k);
      }
    }
  }

  // Key, request and certificate are in place and synced, and the token is not there yet.
  lemma ToTheToken(chain: Chain) returns (ss: seq<Situation>, es: seq<Step>)
    requires chain.csr == Csr(1, 1)
    ensures Life(ss, es) && |es| == 8
    ensures var files := Files(Some(1), Some(Csr(1, 1)), Some(chain), None);
            ss[8] == Situation(files, files, Row(5, Some(6), Some(Csr(1, 1)), Some(chain), true), {Csr(1, 1)}, {}, 6)
  {
    es := [NewKey(1), Sync, NewCsr(1), Sync, SendCsr, Arrive(Enrolled(chain)), KeepCert, Sync];
    var s0 := Born(5, 6);
    var s1 := After(s0, es[0]);
    var s2 := After(s1, es[1]);
    var s3 := After(s2, es[2]);
    var s4 := After(s3, es[3]);
    var s5 := After(s4, es[4]);
    var s6 := After(s5, es[5]);
    var s7 := After(s6, es[6]);
    ss := [s0, s1, s2, s3, s4, s5, s6, s7, After(s7, es[7])];
    forall k | 0 <= k < |es| ensures LifeStep(ss, es, k) {}
  }

  // The token is renamed into place, the process dies before the sync, its successor registers,
  // and the power fails.
  lemma LockOutExample() returns (ss: seq<Situation>, es: seq<Step>)
    ensures Life(ss, es) && |es| == 12 && !Recoverable(ss[12].disk, ss[12].row) && ss[12].row.active
  {
    var chain := Chain(Csr(1, 1), 9);
    ss, es := ToTheToken(chain);
    ss, es := OneMore(ss, es, KeepToken);
    ss, es := OneMore(ss, es, Offer);
    ss, es := OneMore(ss, es, Arrive(Registered(5, chain)));
    ss, es := OneMore(ss, es, PowerLoss(Files(Some(1), Some(Csr(1, 1)), Some(chain), None)));
  }

  // ------------------------------------------------- crashes outside the gap

  // The agent goes on only once its last file is synced: no process has died in between.
  ghost predicate Tidy(ss: seq<Situation>, es: seq<Step>) {
    && |ss| == |es| + 1
    && forall k :: 0 <= k < |es| && !(es[k].Sync? || es[k].Arrive? || es[k].EndCompute? || es[k].PowerLoss?) ==>
         ss[k].durable == ss[k].disk
  }

  // At most one file is not synced, and the machine would be all right without it.
  ghost predicate Almost(s: Situation) {
    Sound(s.(disk := s.durable)) && (s.disk.key != s.durable.key ==> s.disk.csr == s.durable.csr)
  }

  lemma AlmostIsSecure(s: Situation)
    requires Sound(s) && Almost(s)
    ensures Secure(s)
  {}

  lemma TidyStep(s: Situation, e: Step)
    requires Sound(s) && Almost(s) && CanStep(s, e)
    requires e.Sync? || e.Arrive? || e.EndCompute? || e.PowerLoss? || s.durable == s.disk
    ensures Sound(After(s, e)) && Almost(After(s, e))
  {
    AlmostIsSecure(s);
    StepKeeps(s, e);
    if e.Arrive? {
      ArrivalKeeps(s.(disk := s.durable), e.d);
    }
  }

  /** A life in which no process dies between renaming a file and syncing the directory: power
      losses at any moment, also in that gap, never lock the machine out. */
  lemma {:induction false} TidyIsNeverLockedOut(ss: seq<Situation>, es: seq<Step>, k: nat)
    requires Life(ss, es) && Tidy(ss, es) && k < |ss|
    ensures Sound(ss[k]) && Almost(ss[k]) && NeverLockedOut(ss[k])
  {
    if k > 0 {
      TidyIsNeverLockedOut(ss, es, k - 1);
      assert LifeStep(ss, es, k - 1);
      TidyStep(ss[k - 1], es[k - 1]);
    }
    AlmostIsSecure(ss[k]);
    PowerLossIff(ss[k]);
  }

  /** One machine; `ss` and `es` record its life. `tidy`: no process crash falls between a
      rename and the sync of the directory. */
  class Machine {
    const tidy: bool
    var s: Situation
    ghost var ss: seq<Situation>
    ghost var es: seq<Step>

    ghost predicate Valid()
      reads this
    {
      Life(ss, es) && ss[|es|] == s && Sound(s) && (tidy ==> s.durable == s.disk)
    }

    constructor (connection: nat, bootstrap: nat, tidy: bool)
      ensures Valid() && this.tidy == tidy && s == Born(connection, bootstrap)
    {
      this.tidy, s := tidy, Born(connection, bootstrap);
      ss, es := [Born(connection, bootstrap)], [];
    }

    method Do(e: Step)
      requires Life(ss, es) && ss[|es|] == s && Sound(s) && CanStep(s, e) && (e.PowerLoss? ==> Secure(s))
      modifies this
      ensures Life(ss, es) && ss[|es|] == s && s == After(old(s), e) && Sound(s)
    {
      StepKeeps(s, e);
      ss, es := OneMore(ss, es, e);
      s := After(s, e);
    }

    // Power fails and comes back; of what is not synced, some reaches the disk.
    method PowerLoss()
      requires Life(ss, es) && ss[|es|] == s && Sound(s) && Secure(s)
      modifies this
      ensures Life(ss, es) && ss[|es|] == s && Sound(s) && s.durable == s.disk && s.row == old(s.row)
      ensures Outcome(s.disk, old(s.disk), old(s.durable))
    {
      var f := s.durable;
      var key: bool, csr: bool, cert: bool, token: bool := *, *, *, *;
      f := Files(if key then s.disk.key else f.key, if csr then s.disk.csr else f.csr,
                 if cert then s.disk.cert else f.cert, if token then s.disk.token else f.token);
      Do(Step.PowerLoss(f));
    }

    // `persist_private_file`: the process can die before the rename, after it or after the sync,
    // and the power can fail in between.
    method Persist(e: Step, calm: bool) returns (alive: bool)
      requires Valid() && CanStep(s, e) && (e.NewKey? || e.NewCsr? || e.KeepCert? || e.KeepToken?)
      modifies this
      ensures Valid() && s.row == old(s.row)
      ensures alive ==> s.disk == After(old(s), e).disk && s.durable == s.disk
      ensures calm ==> alive
    {
      var crash := Fails(calm);
      if crash {
        return false;
      }
      Do(e);
      crash := Fails(calm);
      if crash && !tidy {
        return false;
      }
      var dark := Fails(calm);
      if dark && tidy {
        AlmostIsSecure(s);
        PowerLoss();
        return false;
      }
      Do(Sync);
      crash := Fails(calm);
      return !crash;
    }

    // The control plane works through what reaches it; the reconciler may end the compute.
    method Interfere(calm: bool)
      requires Valid()
      modifies this
      ensures Valid() && Later(old(s.row), s.row) && s == old(s).(row := s.row) && (calm ==> s == old(s))
    {
      if calm {
        return;
      }
      var n: nat :| true;
      while n > 0
        invariant Valid() && Later(old(s.row), s.row) && s == old(s).(row := s.row)
      {
        var e: Step := *;
        if (e.Arrive? || e.EndCompute?) && CanStep(s, e) {
          Do(e);
        }
        n := n - 1;
      }
    }

    // `load_or_create_csr`: the key first, then a request for it; a stored request is reused.
    method LoadOrCreateCsr(calm: bool) returns (alive: bool)
      requires Valid() && !Stable(s.disk)
      modifies this
      ensures Valid() && s.row == old(s.row)
      ensures alive ==> s.disk.csr.Some? && (old(s.disk.csr).Some? ==> s == old(s)) && !Stable(s.disk)
      ensures calm ==> alive
    {
      if s.disk.key.None? {
        var key: nat :| true;
        alive := Persist(NewKey(key), calm);
        if !alive {
          return;
        }
      }
      if s.disk.csr.None? {
        var nonce: nat :| true;
        alive := Persist(NewCsr(nonce), calm);
        return;
      }
      return true;
    }

    // `enroll`: the request can be processed although the agent no longer waits for it.
    method Enrol(calm: bool) returns (answered: bool)
      requires Valid() && !Stable(s.disk)
      modifies this
      ensures Valid() && Later(old(s.row), s.row)
      ensures answered ==> Answered(s) && !Stable(s.disk)
      ensures calm && old(s.row.active) ==> answered && s.row.active
    {
      var alive := LoadOrCreateCsr(calm);
      if !alive {
        return false;
      }
      Do(SendCsr);
      Interfere(calm);
      var serial: nat :| true;
      Do(Arrive(Enrolled(Chain(s.disk.csr.value, serial))));
      answered := Open(s.row, s.bootstrap) && s.row.csr == s.disk.csr;
      Interfere(calm);
      var lost := Fails(calm);
      answered := answered && !lost;
    }

    // Enrol, then keep the certificate, then the token.
    method Obtain(calm: bool) returns (alive: bool)
      requires Valid() && !Stable(s.disk)
      modifies this
      ensures Valid() && (alive ==> Stable(s.disk)) && Later(old(s.row), s.row)
      ensures calm && old(s.row.active) ==> alive && s.row.active
    {
      alive := Enrol(calm);
      if !alive {
        return;
      }
      alive := Persist(KeepCert, calm);
      if !alive {
        return;
      }
      if !Stable(s.disk) {
        alive := Persist(KeepToken, calm);
      }
    }

    /** Start of the agent, from whatever the last one left, up to its first session. Wherever
        it is cut short, the next start can get in; undisturbed, this one does. */
    method Start(calm: bool) returns (accepted: bool)
      requires Valid()
      modifies this
      ensures Valid() && Later(old(s.row), s.row)
      ensures accepted ==> Matches(s.disk, s.row) && s.row.enrolment.None?
      ensures calm && old(s.row.active) ==> accepted
    {
      if !Stable(s.disk) {
        var alive := Obtain(calm);
        if !alive {
          return false;
        }
      }
      Do(Offer);
      Interfere(calm);
      accepted := Admits(s.row, s.disk.token.value, s.disk.cert.value);
      Do(Arrive(Registered(s.disk.token.value, s.disk.cert.value)));
    }

    /** Any number of starts, crashes of either process, lost answers, and power losses that
        strike where what matters is synced; for a tidy machine that is everywhere. The machine
        can get in afterwards, and does as soon as it is left alone. */
    method Live() returns (accepted: bool)
      requires Valid()
      modifies this
      ensures Valid() && Recoverable(s.disk, s.row)
      ensures s.row.active ==> accepted && Matches(s.disk, s.row)
    {
      var n: nat :| true;
      while n > 0
        invariant Valid()
      {
        var power: bool := *;
        if power && Secure(s) {
          PowerLoss();
        } else {
          var ok := Start(false);
        }
        n := n - 1;
      }
      accepted := Start(true);
    }
  }
}
