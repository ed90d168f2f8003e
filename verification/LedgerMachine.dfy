/**
  The payment ledgers as two threads use them: the command line and the event handler, each with
  its own way of holding a ledger's mutex while it saves, over files that are replaced whole, and
  a process that may die between any two steps, or in the middle of a save, and power that may go.
*/
module LedgerMachine {
  import opened Directory
  import opened Payments

  datatype Owner = Nobody | CommandLine | EventHandler

  /** Where the command line is. An offer is paid without holding the mutex from record to save. */
  datatype Cli =
    | Ready
    | Recording(id: Id, secret: Option<Bytes>, amount: Option<nat>, offer: bool)
    | SavingRecord(id: Id)
    | Encoding(id: Id)
    | SavingCopy(id: Id, copy: Ledger)
    | Asking(id: Id, offer: bool)
    | MarkingRejected(id: Id)
    | SavingRejected(id: Id)
    | SavingInvoice

  datatype LdkEvent =
    | Claimed(hash: Id, proof: Option<Bytes>, secret: Option<Bytes>, amount: nat)
    | Sent(id: Id, preimage: Bytes)
    | NotSent(id: Id)

  datatype Handler = Waiting | Handling(ev: LdkEvent) | Saving(ev: LdkEvent)

  datatype Phase = Down | Starting | Up

  datatype State = State(
    phase: Phase,
    inbound: Ledger, outbound: Ledger,
    inFile: Option<Bytes>, outFile: Option<Bytes>,
    inMay: set<Option<Bytes>>, outMay: set<Option<Bytes>>,   // what a file may be after a power loss
    inOwner: Owner, outOwner: Owner,
    cli: Cli, handler: Handler)

  datatype Step =
    | Pay(id: Id, secret: Option<Bytes>, amount: Option<nat>, offer: bool)
    | Record | SaveRecord
    | TakeCopy | SaveCopy
    | Ask(accepts: bool)
    | MarkRejected | SaveRejected
    | MakeInvoice(made: Option<(Id, Bytes)>, price: nat) | SaveInvoice
    | Deliver(ev: LdkEvent) | Update | Save
    | Die(ins: seq<Ledger>, outs: seq<Ledger>)   // saves under way that have got to their rename, in order
    | PowerLoss(inLeft: Option<Bytes>, outLeft: Option<Bytes>)
    | Start(recent: seq<Id>, inOpens: bool, outOpens: bool) | SaveStart

  predicate OfInbound(ev: LdkEvent) {
    ev.Claimed?
  }

  function Happen(l: Ledger, ev: LdkEvent): Ledger {
    match ev
    case Claimed(hash, preimage, secret, amount) => Claim(l, hash, preimage, secret, amount)
    case Sent(id, preimage) => MarkSent(l, id, preimage)
    case NotSent(id) => MarkFailed(l, id)
  }

  function About(ev: LdkEvent): Id {
    match ev
    case Claimed(hash, _, _, _) => hash
    case Sent(id, _) => id
    case NotSent(id) => id
  }

  /** What an event does to a ledger, part by part of the record. */
  lemma HappensAs(l: Ledger, ev: LdkEvent)
    ensures ev.Claimed? ==>
      var due := if ev.hash in l then l[ev.hash].amount else Some(ev.amount);
      Happen(l, ev) == l[ev.hash := Info(preimage := ev.proof, secret := ev.secret, status := Succeeded, amount := due)]
    ensures ev.Sent? && ev.id in l ==>
      Happen(l, ev) == l[ev.id := Info(preimage := Some(ev.preimage), secret := l[ev.id].secret,
                                       status := Succeeded, amount := l[ev.id].amount)]
    ensures ev.NotSent? && ev.id in l ==>
      Happen(l, ev) == l[ev.id := Info(preimage := l[ev.id].preimage, secret := l[ev.id].secret,
                                       status := Failed, amount := l[ev.id].amount)]
    ensures !ev.Claimed? && ev.id !in l ==> Happen(l, ev) == l
  {
  }

  /** LDK may deliver an event again after a restart: handled twice it does what it did once. */
  lemma ReplayChangesNothing(l: Ledger, ev: LdkEvent)
    ensures Happen(Happen(l, ev), ev) == Happen(l, ev)
  {
    var once := Happen(l, ev);
    assert About(ev) in once ==> Happen(once, ev) == once[About(ev) := Happen(once, ev)[About(ev)]];
  }

  /** Events of different payments can be handled in either order. */
  lemma EventsCommute(l: Ledger, ev: LdkEvent, other: LdkEvent)
    requires About(ev) != About(other)
    ensures Happen(Happen(l, ev), other) == Happen(Happen(l, other), ev)
  {
    var a, b := Happen(Happen(l, ev), other), Happen(Happen(l, other), ev);
    assert forall id :: id in a ==> id in b && a[id] == b[id];
    assert a.Keys == b.Keys;
  }

  /** A save that is over: its directory is synced. */
  function SaveOut(c: Codec, s: State, l: Ledger): State {
    s.(outFile := Some(c.encode(l)), outMay := {Some(c.encode(l))})
  }

  function SaveIn(c: Codec, s: State): State {
    s.(inFile := Some(c.encode(s.inbound)), inMay := {Some(c.encode(s.inbound))})
  }

  /** Is a thread in the middle of saving `l`? */
  predicate SavingOut(s: State, l: Ledger) {
    || (s.phase == Starting && l == s.outbound)
    || (s.phase == Up && (s.cli.SavingRecord? || s.cli.SavingRejected?) && l == s.outbound)
    || (s.phase == Up && s.cli.SavingCopy? && l == s.cli.copy)
    || (s.phase == Up && s.handler.Saving? && !OfInbound(s.handler.ev) && l == s.outbound)
  }

  predicate SavingIn(s: State, l: Ledger) {
    s.phase == Up && (s.cli.SavingInvoice? || (s.handler.Saving? && OfInbound(s.handler.ev))) && l == s.inbound
  }

  /** A file after the renames of some saves that were not synced. */
  function Renamed(c: Codec, file: Option<Bytes>, ls: seq<Ledger>): Option<Bytes> {
    if ls == [] then file else Some(c.encode(ls[|ls|-1]))
  }

  function Encoded(c: Codec, ls: seq<Ledger>): set<Option<Bytes>> {
    set l | l in ls :: Some(c.encode(l))
  }

  predicate Enabled(s: State, step: Step) {
    match step
    case Die(ins, outs) =>
      s.phase != Down && (forall l :: l in ins ==> SavingIn(s, l)) && (forall l :: l in outs ==> SavingOut(s, l))
    case PowerLoss(inLeft, outLeft) => s.phase == Down && inLeft in s.inMay && outLeft in s.outMay
    case Start(_, _, _) => s.phase == Down
    case SaveStart => s.phase == Starting
    case Pay(_, _, _, _) => s.phase == Up && s.cli.Ready? && s.outOwner == Nobody
    case Record => s.phase == Up && s.cli.Recording?
    case SaveRecord => s.phase == Up && s.cli.SavingRecord?
    case TakeCopy => s.phase == Up && s.cli.Encoding? && s.outOwner == Nobody
    case SaveCopy => s.phase == Up && s.cli.SavingCopy?
    case Ask(_) => s.phase == Up && s.cli.Asking?
    case MarkRejected => s.phase == Up && s.cli.MarkingRejected?
    case SaveRejected => s.phase == Up && s.cli.SavingRejected?
    case MakeInvoice(_, _) => s.phase == Up && s.cli.Ready? && s.inOwner == Nobody
    case SaveInvoice => s.phase == Up && s.cli.SavingInvoice?
    case Deliver(ev) =>
      s.phase == Up && s.handler.Waiting? && (if OfInbound(ev) then s.inOwner else s.outOwner) == Nobody
    case Update => s.phase == Up && s.handler.Handling?
    case Save => s.phase == Up && s.handler.Saving?
  }

  function After(c: Codec, s: State, step: Step): State
    requires Enabled(s, step)
  {
    match step
    case Pay(id, secret, amount, offer) => s.(cli := Recording(id, secret, amount, offer), outOwner := CommandLine)
    case Record =>
      var p := s.cli;
      var recorded := s.(outbound := s.outbound[p.id := NewPayment(p.secret, p.amount)]);
      if p.offer then recorded.(cli := Encoding(p.id), outOwner := Nobody) else recorded.(cli := SavingRecord(p.id))
    case SaveRecord => SaveOut(c, s, s.outbound).(cli := Asking(s.cli.id, false))
    case TakeCopy => s.(cli := SavingCopy(s.cli.id, s.outbound))
    case SaveCopy => SaveOut(c, s, s.cli.copy).(cli := Asking(s.cli.id, true))
    case Ask(accepts) =>
      if s.cli.offer then s.(cli := Ready)
      else if accepts then s.(cli := Ready, outOwner := Nobody)
      else s.(cli := Cli.MarkingRejected(s.cli.id))
    case MarkRejected => s.(outbound := MarkFailed(s.outbound, s.cli.id), cli := SavingRejected(s.cli.id))
    case SaveRejected => SaveOut(c, s, s.outbound).(cli := Ready, outOwner := Nobody)
    case MakeInvoice(made, price) =>
      var held := s.(cli := SavingInvoice, inOwner := CommandLine);
      if made.None? then held
      else held.(inbound := s.inbound[made.value.0 := NewPayment(Some(made.value.1), Some(price))])
    case SaveInvoice => SaveIn(c, s).(cli := Ready, inOwner := Nobody)
    case Deliver(ev) =>
      if OfInbound(ev) then s.(handler := Handling(ev), inOwner := EventHandler)
      else s.(handler := Handling(ev), outOwner := EventHandler)
    case Update =>
      var ev := s.handler.ev;
      if OfInbound(ev) then s.(handler := Saving(ev), inbound := Happen(s.inbound, ev))
      else s.(handler := Saving(ev), outbound := Happen(s.outbound, ev))
    case Save =>
      if OfInbound(s.handler.ev) then SaveIn(c, s).(handler := Waiting, inOwner := Nobody)
      else SaveOut(c, s, s.outbound).(handler := Waiting, outOwner := Nobody)
    case Die(ins, outs) =>
      State(Down, map[], map[], Renamed(c, s.inFile, ins), Renamed(c, s.outFile, outs),
            s.inMay + Encoded(c, ins), s.outMay + Encoded(c, outs), Nobody, Nobody, Ready, Waiting)
    case PowerLoss(inLeft, outLeft) => s.(inFile := inLeft, outFile := outLeft, inMay := {inLeft}, outMay := {outLeft})
    case Start(recent, inOpens, outOpens) =>
      var inFile, outFile := if inOpens then s.inFile else None, if outOpens then s.outFile else None;
      s.(phase := Starting, inbound := Recover(c, inFile), outbound := Reconcile(Recover(c, outFile), recent))
    case SaveStart => SaveOut(c, s, s.outbound).(phase := Up)
  }

  ghost predicate StepTo(c: Codec, s: State, step: Step, s': State) {
    Enabled(s, step) && s' == After(c, s, step)
  }

  /** A node that has never run, or was stopped, over files that hold ledgers. */
  ghost predicate Init(c: Codec, s: State) {
    && s.phase == Down && s.inOwner == Nobody && s.outOwner == Nobody && s.cli.Ready? && s.handler.Waiting?
    && s.inbound == map[] && s.outbound == map[]
    && s.inFile in s.inMay && s.outFile in s.outMay
    && forall f :: f in s.outMay ==> PreimagesOk(Recover(c, f))
  }

  ghost predicate IsExecution(c: Codec, run: seq<State>, steps: seq<Step>) {
    && RoundTrips(c) && |run| == |steps| + 1 && Init(c, run[0])
    && forall i :: 0 <= i < |steps| ==> StepTo(c, run[i], steps[i], run[i+1])
  }

  function InDisk(c: Codec, s: State): Ledger {
    Recover(c, s.inFile)
  }

  function OutDisk(c: Codec, s: State): Ledger {
    Recover(c, s.outFile)
  }

  // ---------- who holds the mutexes ----------

  predicate CliHoldsOut(cli: Cli) {
    cli.Recording? || cli.SavingRecord? || cli.MarkingRejected? || cli.SavingRejected? || (cli.Asking? && !cli.offer)
  }

  predicate HandlerHolds(h: Handler, inb: bool) {
    !h.Waiting? && OfInbound(h.ev) == inb
  }

  ghost predicate OwnersOk(s: State) {
    && (s.outOwner == CommandLine <==> CliHoldsOut(s.cli))
    && (s.outOwner == EventHandler <==> HandlerHolds(s.handler, false))
    && (s.inOwner == CommandLine <==> s.cli.SavingInvoice?)
    && (s.inOwner == EventHandler <==> HandlerHolds(s.handler, true))
    && (s.phase != Up ==> s.cli.Ready? && s.handler.Waiting?)
  }

  // ---------- the files ----------

  /** While the process is up nothing it has saved can be undone. */
  ghost predicate FilesOk(s: State) {
    && s.inFile in s.inMay && s.outFile in s.outMay
    && (s.phase == Up ==> s.outMay == {s.outFile})
  }

  /** The file is one a thread may be about to leave. */
  ghost predicate InTheMaking(c: Codec, s: State, f: Option<Bytes>) {
    exists l :: SavingOut(s, l) && f == Some(c.encode(l))
  }

  /** Whatever happens to the outbound file, it is one that may come back or one being saved. */
  lemma FilesComeFrom(c: Codec, s: State, step: Step, s': State)
    requires OwnersOk(s) && StepTo(c, s, step, s')
    ensures forall f :: f in s'.outMay ==> f in s.outMay || InTheMaking(c, s, f)
    ensures s'.outFile == s.outFile || step.PowerLoss? || InTheMaking(c, s, s'.outFile)
  {
    if step.Die? && step.outs != [] {
      assert SavingOut(s, step.outs[|step.outs|-1]);
    }
    forall f | f in s'.outMay && f !in s.outMay ensures InTheMaking(c, s, f) {
      if step.Die? {
        var l :| l in step.outs && f == Some(c.encode(l));
      } else if step.SaveCopy? {
        assert SavingOut(s, s.cli.copy);
      } else {
        assert SavingOut(s, s.outbound);
      }
    }
    if !step.Die? && s'.outFile != s.outFile && !step.PowerLoss? {
      assert if step.SaveCopy? then SavingOut(s, s.cli.copy) else SavingOut(s, s.outbound);
    }
  }

  // ---------- the ids ----------

  /** Ids are on disk before LDK hears of them; memory, and any copy of it, has all that disk has. */
  ghost predicate IdsOk(c: Codec, s: State) {
    && (s.phase == Up ==> OutDisk(c, s).Keys <= s.outbound.Keys)
    && (s.cli.SavingCopy? ==> s.cli.copy.Keys == s.outbound.Keys && s.cli.id in s.outbound)
    && (s.cli.Encoding? ==> s.cli.id in s.outbound)
    && (s.cli.SavingRecord? ==> s.cli.id in s.outbound)
    && (s.cli.Asking? ==> s.cli.id in OutDisk(c, s))
  }

  // ---------- the preimages ----------

  ghost predicate AllPreimagesOk(c: Codec, s: State) {
    && PreimagesOk(s.outbound) && (forall f :: f in s.outMay ==> PreimagesOk(Recover(c, f)))
    && (s.cli.SavingCopy? ==> PreimagesOk(s.cli.copy))
  }

  ghost predicate Inv(c: Codec, s: State) {
    OwnersOk(s) && FilesOk(s) && IdsOk(c, s) && AllPreimagesOk(c, s)
  }

  lemma OwnersKept(c: Codec, s: State, step: Step)
    requires OwnersOk(s) && Enabled(s, step)
    ensures OwnersOk(After(c, s, step))
  {
  }

  lemma FilesKept(c: Codec, s: State, step: Step)
    requires FilesOk(s) && Enabled(s, step)
    ensures FilesOk(After(c, s, step))
  {
  }

  lemma IdsKept(c: Codec, s: State, step: Step)
    requires RoundTrips(c) && OwnersOk(s) && IdsOk(c, s) && Enabled(s, step)
    ensures IdsOk(c, After(c, s, step))
  {
  }

  lemma PreimagesKept(c: Codec, s: State, step: Step)
    requires RoundTrips(c) && OwnersOk(s) && FilesOk(s) && AllPreimagesOk(c, s) && Enabled(s, step)
    ensures AllPreimagesOk(c, After(c, s, step))
  {
    hide PreimagesOk;
    MemoryKeepsPreimages(c, s, step);
    var s' := After(c, s, step);
    FilesComeFrom(c, s, step, s');
    hide After;
    hide FilesOk;
    hide OwnersOk;
    forall f | f in s'.outMay ensures PreimagesOk(Recover(c, f)) {
      if f !in s.outMay {
        var l :| SavingOut(s, l) && f == Some(c.encode(l));
        SavedIsFound(c, l);
      }
    }
  }

  lemma MemoryKeepsPreimages(c: Codec, s: State, step: Step)
    requires FilesOk(s) && AllPreimagesOk(c, s) && Enabled(s, step)
    ensures PreimagesOk(After(c, s, step).outbound)
    ensures After(c, s, step).cli.SavingCopy? ==> PreimagesOk(After(c, s, step).cli.copy)
  {
    hide PreimagesOk;
    NothingKeepsPreimages();
    match step
    case Record => RecordKeepsPreimages(s.outbound, s.cli.id, s.cli.secret, s.cli.amount);
    case MarkRejected => FailureKeepsPreimages(s.outbound, s.cli.id);
    case Update =>
      match s.handler.ev {
        case Claimed(_, _, _, _) =>
        case Sent(id, preimage) => SuccessKeepsPreimages(s.outbound, id, preimage);
        case NotSent(id) => FailureKeepsPreimages(s.outbound, id);
      }
    case Start(recent, _, outOpens) =>
      ReconcileKeepsPreimages(Recover(c, if outOpens then s.outFile else None), recent);
    case _ =>
  }

  lemma InitInv(c: Codec, s: State)
    requires Init(c, s)
    ensures Inv(c, s)
  {
  }

  lemma InvParts(c: Codec, s: State)
    requires Inv(c, s)
    ensures OwnersOk(s) && FilesOk(s) && IdsOk(c, s) && AllPreimagesOk(c, s)
  {
  }

  // ---------- every execution ----------

  lemma {:induction false} ExecutionInv(c: Codec, run: seq<State>, steps: seq<Step>, n: nat)
    requires IsExecution(c, run, steps) && n <= |steps|
    ensures Inv(c, run[n])
  {
    hide Init;
    hide OwnersOk;
    hide FilesOk;
    hide IdsOk;
    hide AllPreimagesOk;
    hide After;
    if n == 0 {
      InitInv(c, run[0]);
    } else {
      ExecutionInv(c, run, steps, n - 1);
      assert StepTo(c, run[n-1], steps[n-1], run[n]);
      OwnersKept(c, run[n-1], steps[n-1]);
      FilesKept(c, run[n-1], steps[n-1]);
      IdsKept(c, run[n-1], steps[n-1]);
      PreimagesKept(c, run[n-1], steps[n-1]);
    }
  }

  /** At every moment, in memory and on disk, now and after a power loss: what succeeded has its
      preimage, what is pending none. */
  lemma PreimagesAlwaysOk(c: Codec, run: seq<State>, steps: seq<Step>, n: nat)
    requires IsExecution(c, run, steps) && n <= |steps|
    ensures AllPreimagesOk(c, run[n]) && PreimagesOk(OutDisk(c, run[n]))
  {
    hide PreimagesOk;
    ExecutionInv(c, run, steps, n);
  }

  // ---------- what a call and an event leave on disk ----------

  /** A call that pays as `p` says, begun over the ledger `was`, is where it should be. By an offer
      the mutex is not held throughout, and events may have moved the status, but not the terms. */
  ghost predicate Given(c: Codec, s: State, p: Step, was: Ledger)
    requires p.Pay?
  {
    var paid := was[p.id := Info(preimage := None, secret := p.secret, status := Pending, amount := p.amount)];
    var failed := was[p.id := Info(preimage := None, secret := p.secret, status := Failed, amount := p.amount)];
    match s.cli
    case Recording(id, secret, amount, offer) => p == Pay(id, secret, amount, offer) && s.outbound == was
    case SavingRecord(id) => !p.offer && id == p.id && s.outbound == paid
    case Asking(id, offer) =>
      && id == p.id && offer == p.offer
      && (if offer then HasTerms(s.outbound, p) && HasTerms(OutDisk(c, s), p)
          else s.outbound == paid == OutDisk(c, s))
    case MarkingRejected(id) => !p.offer && id == p.id && s.outbound == paid
    case SavingRejected(id) => !p.offer && id == p.id && s.outbound == failed
    case Encoding(id) => p.offer && id == p.id && HasTerms(s.outbound, p)
    case SavingCopy(id, copy) => p.offer && id == p.id && HasTerms(s.outbound, p) && HasTerms(copy, p)
    case _ => false
  }

  /** The payment is there with the secret and the amount it was made with. */
  predicate HasTerms(l: Ledger, p: Step)
    requires p.Pay?
  {
    p.id in l && l[p.id].secret == p.secret && l[p.id].amount == p.amount
  }

  lemma HappenKeepsTerms(l: Ledger, ev: LdkEvent, p: Step)
    requires p.Pay? && !OfInbound(ev) && HasTerms(l, p)
    ensures HasTerms(Happen(l, ev), p)
  {
  }

  lemma GivenKept(c: Codec, s: State, step: Step, s': State, p: Step, was: Ledger)
    requires RoundTrips(c) && OwnersOk(s) && StepTo(c, s, step, s') && p.Pay? && Given(c, s, p, was)
    ensures s'.cli.Ready? || Given(c, s', p, was)
  {
    if step.Update? && !OfInbound(s.handler.ev) && p.offer && !s.cli.Recording? {
      HappenKeepsTerms(s.outbound, s.handler.ev, p);
    }
  }

  /** A call under way since step `i`: nothing but a kill ends it early. */
  lemma {:induction false} GivenStays(c: Codec, run: seq<State>, steps: seq<Step>, i: nat, n: nat)
    requires IsExecution(c, run, steps) && i < n <= |steps| && steps[i].Pay?
    requires forall k :: i < k <= n ==> !run[k].cli.Ready?
    ensures Given(c, run[n], steps[i], run[i].outbound)
  {
    hide Given;
    hide After;
    hide OwnersOk;
    ExecutionInv(c, run, steps, n - 1);
    assert StepTo(c, run[n-1], steps[n-1], run[n]);
    if n == i + 1 {
      GivenBegins(c, run[i], steps[i], run[n]);
    } else {
      GivenStays(c, run, steps, i, n - 1);
      GivenKept(c, run[n-1], steps[n-1], run[n], steps[i], run[i].outbound);
    }
  }

  lemma GivenBegins(c: Codec, s: State, step: Step, s': State)
    requires StepTo(c, s, step, s') && step.Pay?
    ensures Given(c, s', step, s.outbound)
  {
  }

  /** A payment is on disk, when LDK is asked for it and once it is rejected, with the secret and the
      amount that the call was given; unless it is an offer's, that is all that is new on disk. */
  lemma PaidAsGiven(c: Codec, run: seq<State>, steps: seq<Step>, i: nat, j: nat)
    requires IsExecution(c, run, steps) && i < j < |steps| && steps[i].Pay?
    requires forall k :: i < k <= j ==> !run[k].cli.Ready?
    ensures var p, was := steps[i], run[i].outbound;
      && (steps[j].Ask? ==> p.id in OutDisk(c, run[j]))
      && (steps[j].Ask? ==> OutDisk(c, run[j])[p.id].secret == p.secret && OutDisk(c, run[j])[p.id].amount == p.amount)
      && (steps[j].Ask? && !p.offer ==> OutDisk(c, run[j]) == was[p.id := Info(None, p.secret, Pending, p.amount)])
      && (steps[j] == SaveRejected ==> OutDisk(c, run[j+1]) == was[p.id := Info(None, p.secret, Failed, p.amount)])
  {
    GivenStays(c, run, steps, i, j);
    assert StepTo(c, run[j], steps[j], run[j+1]);
  }

  /** An invoice that was made is on disk, once saved, as it was made, and nothing else is new there. */
  lemma {:induction false} InvoiceIsHeld(c: Codec, run: seq<State>, steps: seq<Step>, i: nat, n: nat)
    requires IsExecution(c, run, steps) && i < n <= |steps| && steps[i].MakeInvoice?
    requires forall k :: i < k <= n ==> !run[k].cli.Ready?
    ensures run[n].cli == SavingInvoice
    ensures var was, made := run[i].inbound, steps[i].made;
      run[n].inbound == if made.None? then was
                        else was[made.value.0 := Info(None, Some(made.value.1), Pending, Some(steps[i].price))]
  {
    ExecutionInv(c, run, steps, n - 1);
    InvParts(c, run[n-1]);
    assert StepTo(c, run[n-1], steps[n-1], run[n]);
    if n > i + 1 {
      InvoiceIsHeld(c, run, steps, i, n - 1);
    }
  }

  lemma MadeAsGiven(c: Codec, run: seq<State>, steps: seq<Step>, i: nat, j: nat)
    requires IsExecution(c, run, steps) && i < j < |steps| && steps[i].MakeInvoice? && steps[j] == SaveInvoice
    requires forall k :: i < k <= j ==> !run[k].cli.Ready?
    ensures var was, made := run[i].inbound, steps[i].made;
      InDisk(c, run[j+1]) == if made.None? then was
                             else was[made.value.0 := Info(None, Some(made.value.1), Pending, Some(steps[i].price))]
  {
    InvoiceIsHeld(c, run, steps, i, j);
    assert StepTo(c, run[j], steps[j], run[j+1]);
  }

  /** The ledger an event is about is the handler's alone until it is saved. */
  lemma {:induction false} EventIsHeld(c: Codec, run: seq<State>, steps: seq<Step>, i: nat, n: nat)
    requires IsExecution(c, run, steps) && i < n <= |steps| && steps[i].Deliver?
    requires forall k :: i < k <= n ==> !run[k].handler.Waiting?
    ensures Handled(run[i], steps[i].ev, run[n])
  {
    hide Handled;
    hide After;
    hide OwnersOk;
    ExecutionInv(c, run, steps, n - 1);
    assert StepTo(c, run[n-1], steps[n-1], run[n]);
    if n > i + 1 {
      EventIsHeld(c, run, steps, i, n - 1);
      HandledKept(c, run[i], steps[i].ev, run[n-1], steps[n-1], run[n]);
    } else {
      HandledBegins(c, run[i], steps[i].ev, run[n]);
    }
  }

  predicate Handled(was: State, ev: LdkEvent, s: State) {
    && (s.handler == Handling(ev) || s.handler == Saving(ev))
    && (OfInbound(ev) ==> s.inbound == if s.handler.Saving? then Happen(was.inbound, ev) else was.inbound)
    && (!OfInbound(ev) ==> s.outbound == if s.handler.Saving? then Happen(was.outbound, ev) else was.outbound)
  }

  lemma HandledBegins(c: Codec, s: State, ev: LdkEvent, s': State)
    requires StepTo(c, s, Deliver(ev), s')
    ensures Handled(s, ev, s')
  {
  }

  lemma HandledKept(c: Codec, was: State, ev: LdkEvent, s: State, step: Step, s': State)
    requires OwnersOk(s) && StepTo(c, s, step, s') && Handled(was, ev, s)
    ensures s'.handler.Waiting? || Handled(was, ev, s')
  {
    hide Happen;
  }

  /** Once its event is saved, all that is new on disk, against the ledger in memory when it was
      delivered, is what the event does: whatever calls there were in the meantime. */
  lemma EventReachesDisk(c: Codec, run: seq<State>, steps: seq<Step>, i: nat, j: nat)
    requires IsExecution(c, run, steps) && i < j < |steps| && steps[i].Deliver? && steps[j] == Step.Save
    requires forall k :: i < k <= j ==> !run[k].handler.Waiting?
    ensures var ev := steps[i].ev;
      if OfInbound(ev) then InDisk(c, run[j+1]) == Happen(run[i].inbound, ev)
      else OutDisk(c, run[j+1]) == Happen(run[i].outbound, ev)
  {
    hide Happen;
    EventIsHeld(c, run, steps, i, j);
    assert StepTo(c, run[j], steps[j], run[j+1]);
  }

  /** A start finds what was saved, less the pending payments that LDK no longer knows: they failed.
      What it cannot open, or what does not decode, it takes to be empty. */
  lemma StartFinds(c: Codec, s: State, start: Step)
    requires start.Start? && Enabled(s, start)
    ensures var s' := After(c, s, start);
      var out := if start.outOpens && s.outFile.Some? then c.decode(s.outFile.value) else None;
      var inn := if start.inOpens && s.inFile.Some? then c.decode(s.inFile.value) else None;
      && s'.inbound == (if inn.Some? then inn.value else map[])
      && s'.outbound.Keys == (if out.Some? then out.value.Keys else {})
      && (forall id :: id in s'.outbound ==>
            var info := out.value[id];
            s'.outbound[id] == if info.status == Pending && id !in start.recent then info.(status := Failed) else info)
      && s'.inFile == s.inFile && s'.outFile == s.outFile
  {
  }

  // ---------- who can go on ----------

  /** What the command line does next, if it is doing something. */
  function NextOf(cli: Cli, accepts: bool): Step
    requires !cli.Ready?
  {
    match cli
    case Recording(_, _, _, _) => Record
    case SavingRecord(_) => SaveRecord
    case Encoding(_) => TakeCopy
    case SavingCopy(_, _) => SaveCopy
    case Asking(_, _) => Ask(accepts)
    case MarkingRejected(_) => Step.MarkRejected
    case SavingRejected(_) => SaveRejected
    case SavingInvoice => SaveInvoice
  }

  /** A handler that has a ledger waits for nobody; the command line waits only for the handler, and
      only to begin a call or to copy the ledger for an offer. */
  lemma NobodyIsStuck(c: Codec, run: seq<State>, steps: seq<Step>, n: nat, accepts: bool, pay: Step, ev: LdkEvent)
    requires IsExecution(c, run, steps) && n <= |steps| && run[n].phase == Up && pay.Pay?
    ensures var s := run[n];
      && (s.handler.Handling? ==> Enabled(s, Update))
      && (s.handler.Saving? ==> Enabled(s, Step.Save))
      && (!s.cli.Ready? && !s.cli.Encoding? ==> Enabled(s, NextOf(s.cli, accepts)))
      && (s.cli.Encoding? ==> (Enabled(s, NextOf(s.cli, accepts)) <==> !HandlerHolds(s.handler, false)))
      && (s.cli.Ready? ==> (Enabled(s, pay) <==> !HandlerHolds(s.handler, false)))
      && (s.cli.Ready? && s.handler.Waiting? ==> Enabled(s, Deliver(ev)))
  {
    hide FilesOk;
    hide IdsOk;
    hide AllPreimagesOk;
    ExecutionInv(c, run, steps, n);
  }

  // ---------- ids that stay ----------

  /** The id is in the outbound file, whatever a power loss leaves of it. */
  ghost predicate Sure(c: Codec, s: State, id: Id) {
    forall f :: f in s.outMay ==> id in Recover(c, f)
  }

  /** Every start among the steps from `i` to `j` can open the outbound file, or finds nothing in it. */
  ghost predicate StartsKeep(c: Codec, run: seq<State>, steps: seq<Step>, i: nat, j: nat)
    requires i <= j <= |steps| < |run|
  {
    forall k :: i <= k < j && steps[k].Start? ==> steps[k].outOpens || OutDisk(c, run[k]) == map[]
  }

  /** A process that is starting has just read the file, or failed to. */
  lemma StartIsFirst(c: Codec, s: State, step: Step, s': State)
    requires StepTo(c, s, step, s') && s'.phase == Starting
    ensures step.Start? && s'.outbound == Reconcile(Recover(c, if step.outOpens then s.outFile else None), step.recent)
  {
  }

  /** What is being saved has every id that is on disk. */
  lemma SavesHaveIds(c: Codec, s: State, l: Ledger, id: Id)
    requires IdsOk(c, s) && SavingOut(s, l) && id in OutDisk(c, s)
    requires s.phase == Starting ==> id in s.outbound
    ensures id in l
  {
  }

  /** No kill, power loss or stale copy takes away an id that no power loss could, nor does a start
      that can open the file. */
  lemma {:induction false} IdStays(c: Codec, run: seq<State>, steps: seq<Step>, i: nat, j: nat, id: Id)
    requires IsExecution(c, run, steps) && i <= j <= |steps| && StartsKeep(c, run, steps, i, j)
    requires Sure(c, run[i], id) && (run[i].phase == Starting ==> id in run[i].outbound)
    ensures Sure(c, run[j], id) && (run[j].phase == Starting ==> id in run[j].outbound)
    ensures id in OutDisk(c, run[j])
    decreases j
  {
    hide After;
    hide OwnersOk;
    hide IdsOk;
    hide Recover;
    hide SavingOut;
    hide AllPreimagesOk;
    ExecutionInv(c, run, steps, j);
    if i < j {
      var s, s' := run[j-1], run[j];
      IdStays(c, run, steps, i, j - 1, id);
      ExecutionInv(c, run, steps, j - 1);
      assert StepTo(c, s, steps[j-1], s');
      FilesComeFrom(c, s, steps[j-1], s');
      forall f | f in s'.outMay && f !in s.outMay ensures id in Recover(c, f) {
        var l :| SavingOut(s, l) && f == Some(c.encode(l));
        SavesHaveIds(c, s, l, id);
        SavedIsFound(c, l);
      }
      if s'.phase == Starting {
        StartIsFirst(c, s, steps[j-1], s');
      }
    }
  }

  /** The ledger on disk once a power loss has left `f` of its file. */
  function AfterLoss(c: Codec, s: State, f: Option<Bytes>): Ledger
    requires Enabled(s, PowerLoss(s.inFile, f))
  {
    OutDisk(c, After(c, s, PowerLoss(s.inFile, f)))
  }

  /** An id is sure if and only if there is no power loss after which it is gone. */
  lemma SureIsExact(c: Codec, s: State, id: Id)
    requires FilesOk(s) && s.phase == Down
    ensures Sure(c, s, id) <==> forall f :: Enabled(s, PowerLoss(s.inFile, f)) ==> id in AfterLoss(c, s, f)
  {
    forall f | f in s.outMay ensures AfterLoss(c, s, f) == Recover(c, f) {
      assert Enabled(s, PowerLoss(s.inFile, f));
    }
  }

  /** Unless the power goes, the ids on disk only grow in number. */
  lemma {:induction false} IdsGrow(c: Codec, run: seq<State>, steps: seq<Step>, i: nat, j: nat)
    requires IsExecution(c, run, steps) && i <= j <= |steps| && StartsKeep(c, run, steps, i, j)
    requires forall k :: i <= k < j ==> !steps[k].PowerLoss?
    requires run[i].phase == Starting ==> OutDisk(c, run[i]).Keys <= run[i].outbound.Keys
    ensures OutDisk(c, run[i]).Keys <= OutDisk(c, run[j]).Keys
    ensures run[j].phase == Starting ==> OutDisk(c, run[i]).Keys <= run[j].outbound.Keys
    decreases j
  {
    hide After;
    hide OwnersOk;
    hide FilesOk;
    hide IdsOk;
    hide Recover;
    hide SavingOut;
    hide AllPreimagesOk;
    if i < j {
      var s, s' := run[j-1], run[j];
      IdsGrow(c, run, steps, i, j - 1);
      ExecutionInv(c, run, steps, j - 1);
      assert StepTo(c, s, steps[j-1], s');
      FilesComeFrom(c, s, steps[j-1], s');
      if s'.outFile != s.outFile {
        var l :| SavingOut(s, l) && s'.outFile == Some(c.encode(l));
        forall id | id in OutDisk(c, run[i]) ensures id in l {
          SavesHaveIds(c, s, l, id);
        }
        SavedIsFound(c, l);
      }
      if s'.phase == Starting {
        StartIsFirst(c, s, steps[j-1], s');
      }
    }
  }

  /** Whatever way it is paid, and whatever came before, a payment is on disk when LDK is asked for
      it, where no power loss can take it away; and it is there as long as no start fails to open the
      file. */
  lemma WriteAhead(c: Codec, run: seq<State>, steps: seq<Step>, i: nat, j: nat)
    requires IsExecution(c, run, steps) && i <= j <= |steps| && i < |steps| && steps[i].Ask?
    ensures run[i].cli.Asking? && Sure(c, run[i], run[i].cli.id)
    ensures StartsKeep(c, run, steps, i, j) ==> Sure(c, run[j], run[i].cli.id) && run[i].cli.id in OutDisk(c, run[j])
  {
    assert StepTo(c, run[i], steps[i], run[i+1]);
    ExecutionInv(c, run, steps, i);
    if StartsKeep(c, run, steps, i, j) {
      IdStays(c, run, steps, i, j, run[i].cli.id);
    }
  }

  // ---------- disk and memory ----------

  /** The mutex of the outbound ledger is free, and no offer is between its record and its save. */
  predicate OutSettled(s: State) {
    s.phase == Up && s.outOwner == Nobody && !s.cli.Encoding? && !s.cli.SavingCopy?
  }

  predicate SavesOut(s: State, step: Step) {
    || step.SaveRecord? || step.SaveCopy? || step.SaveRejected? || step.SaveStart?
    || (step.Save? && s.handler.Saving? && !OfInbound(s.handler.ev))
  }

  predicate SavesIn(s: State, step: Step) {
    step.SaveInvoice? || (step.Save? && s.handler.Saving? && OfInbound(s.handler.ev))
  }

  /** An offer's copy of the ledger is taken at step `j`, and is what is about to be saved at `n`. */
  predicate CopiedAt(run: seq<State>, steps: seq<Step>, j: nat, n: nat)
    requires n <= |steps| < |run|
  {
    j < n && steps[j] == TakeCopy && forall i :: j < i <= n ==> run[i].cli.SavingCopy?
  }

  /** The last save was of a copy that memory had left behind by then. */
  ghost predicate Lags(run: seq<State>, steps: seq<Step>, n: nat)
    requires n <= |steps| < |run|
  {
    exists j: nat, k: nat :: StaleSave(run, steps, j, k, n)
  }

  /** The last save was at step `k`, of a copy taken at step `j` of another ledger than at `k`. */
  ghost predicate StaleSave(run: seq<State>, steps: seq<Step>, j: nat, k: nat, n: nat)
    requires n <= |steps| < |run|
  {
    && k < n && steps[k] == SaveCopy && CopiedAt(run, steps, j, k)
    && run[j].outbound != run[k].outbound && NoSaveBetween(run, steps, k, n)
  }

  predicate NoSaveBetween(run: seq<State>, steps: seq<Step>, k: nat, n: nat)
    requires n <= |steps| < |run|
  {
    forall i :: k < i < n ==> !SavesOut(run[i], steps[i])
  }

  /** The last start could not open the file of an inbound ledger that was there, and nothing has
      been saved over it since. */
  ghost predicate Unread(c: Codec, run: seq<State>, steps: seq<Step>, n: nat)
    requires n <= |steps| < |run|
  {
    exists k: nat :: MissedRead(c, run, steps, k, n)
  }

  ghost predicate MissedRead(c: Codec, run: seq<State>, steps: seq<Step>, k: nat, n: nat)
    requires n <= |steps| < |run|
  {
    k < n && steps[k].Start? && !steps[k].inOpens && InDisk(c, run[k]) != map[] && Since(run, steps, k, n)
  }

  predicate Since(run: seq<State>, steps: seq<Step>, k: nat, n: nat)
    requires n <= |steps| < |run|
  {
    forall i :: k < i < n ==> !SavesIn(run[i], steps[i]) && !steps[i].Start?
  }

  /** No save is due: what was last saved is what memory has, but for a copy left behind. */
  predicate OutEven(s: State) {
    OutSettled(s) || (s.phase == Up && s.cli.Asking? && !s.cli.offer)
  }

  predicate InEven(s: State) {
    (s.phase == Up && s.inOwner == Nobody) || s.phase == Starting
  }

  lemma OutStep(c: Codec, s: State, step: Step, s': State)
    requires RoundTrips(c) && OwnersOk(s) && StepTo(c, s, step, s') && OutEven(s')
    ensures !SavesOut(s, step) ==> OutEven(s) && OutDisk(c, s') == OutDisk(c, s) && s'.outbound == s.outbound
    ensures SavesOut(s, step) && step != SaveCopy ==> OutDisk(c, s') == s'.outbound
    ensures step == SaveCopy ==> OutDisk(c, s') == s.cli.copy && s'.outbound == s.outbound
  {
  }

  lemma InStep(c: Codec, s: State, step: Step, s': State)
    requires RoundTrips(c) && OwnersOk(s) && StepTo(c, s, step, s') && InEven(s')
    ensures SavesIn(s, step) ==> InDisk(c, s') == s'.inbound
    ensures step.Start? ==> InDisk(c, s') == InDisk(c, s) && s'.inbound == if step.inOpens then InDisk(c, s) else map[]
    ensures !SavesIn(s, step) && !step.Start? ==> InEven(s) && InDisk(c, s') == InDisk(c, s) && s'.inbound == s.inbound
  {
  }

  lemma CopyStep(c: Codec, s: State, step: Step, s': State)
    requires StepTo(c, s, step, s') && s'.cli.SavingCopy?
    ensures s.cli.SavingCopy? ==> step != TakeCopy && s'.cli.copy == s.cli.copy
    ensures !s.cli.SavingCopy? ==> step == TakeCopy && s'.cli.copy == s.outbound
  {
  }

  lemma {:induction false} CopyIsOf(c: Codec, run: seq<State>, steps: seq<Step>, n: nat) returns (j: nat)
    requires IsExecution(c, run, steps) && n <= |steps| && run[n].cli.SavingCopy?
    ensures CopiedAt(run, steps, j, n) && run[n].cli.copy == run[j].outbound
  {
    hide After;
    assert StepTo(c, run[n-1], steps[n-1], run[n]);
    CopyStep(c, run[n-1], steps[n-1], run[n]);
    if run[n-1].cli.SavingCopy? {
      j := CopyIsOf(c, run, steps, n - 1);
    } else {
      j := n - 1;
    }
  }

  lemma OneCopy(c: Codec, run: seq<State>, steps: seq<Step>, i: nat, j: nat, n: nat)
    requires IsExecution(c, run, steps) && n <= |steps| && CopiedAt(run, steps, i, n) && CopiedAt(run, steps, j, n)
    ensures i == j
  {
    hide After;
    assert StepTo(c, run[i], steps[i], run[i+1]) && StepTo(c, run[j], steps[j], run[j+1]);
  }

  /** When the last step saved a copy, memory is ahead if and only if it was when the copy was saved. */
  lemma LagsAfterCopy(c: Codec, run: seq<State>, steps: seq<Step>, n: nat, j: nat)
    requires IsExecution(c, run, steps) && 0 < n <= |steps| && steps[n-1] == SaveCopy && CopiedAt(run, steps, j, n - 1)
    ensures Lags(run, steps, n) <==> run[j].outbound != run[n-1].outbound
  {
    if run[j].outbound != run[n-1].outbound {
      assert NoSaveBetween(run, steps, n - 1, n);
      assert StaleSave(run, steps, j, n - 1, n);
    }
    if Lags(run, steps, n) {
      var i: nat, k: nat :| StaleSave(run, steps, i, k, n);
      assert k < n - 1 ==> SavesOut(run[n-1], steps[n-1]);
      OneCopy(c, run, steps, i, j, n - 1);
    }
  }

  lemma LagsAfterOther(run: seq<State>, steps: seq<Step>, n: nat)
    requires 0 < n <= |steps| < |run| && steps[n-1] != SaveCopy
    ensures Lags(run, steps, n) <==> !SavesOut(run[n-1], steps[n-1]) && Lags(run, steps, n - 1)
  {
    if Lags(run, steps, n) {
      var i: nat, k: nat :| StaleSave(run, steps, i, k, n);
      assert k < n - 1 && NoSaveBetween(run, steps, k, n - 1);
      assert StaleSave(run, steps, i, k, n - 1);
    }
    if Lags(run, steps, n - 1) && !SavesOut(run[n-1], steps[n-1]) {
      var i: nat, k: nat :| StaleSave(run, steps, i, k, n - 1);
      assert NoSaveBetween(run, steps, k, n);
      assert StaleSave(run, steps, i, k, n);
    }
  }

  lemma {:induction false} OutIsMemory(c: Codec, run: seq<State>, steps: seq<Step>, n: nat)
    requires IsExecution(c, run, steps) && n <= |steps| && OutEven(run[n])
    ensures OutDisk(c, run[n]) == run[n].outbound <==> !Lags(run, steps, n)
  {
    hide StepTo;
    hide OutDisk;
    hide Lags;
    hide OutEven;
    hide OwnersOk;
    if n == 0 {
      StartsDown(c, run[0]);
    } else {
      ExecutionInv(c, run, steps, n - 1);
      InvParts(c, run[n-1]);
      assert StepTo(c, run[n-1], steps[n-1], run[n]);
      OutStep(c, run[n-1], steps[n-1], run[n]);
      if steps[n-1] == SaveCopy {
        SavesItsCopy(c, run[n-1], run[n]);
        var j := CopyIsOf(c, run, steps, n - 1);
        LagsAfterCopy(c, run, steps, n, j);
      } else {
        LagsAfterOther(run, steps, n);
        if !SavesOut(run[n-1], steps[n-1]) {
          OutIsMemory(c, run, steps, n - 1);
        }
      }
    }
  }

  lemma StartsDown(c: Codec, s: State)
    requires Init(c, s)
    ensures !OutEven(s) && !InEven(s)
  {
  }

  lemma SavesItsCopy(c: Codec, s: State, s': State)
    requires StepTo(c, s, SaveCopy, s')
    ensures s.cli.SavingCopy?
  {
  }

  lemma {:induction false} InIsMemory(c: Codec, run: seq<State>, steps: seq<Step>, n: nat)
    requires IsExecution(c, run, steps) && n <= |steps| && InEven(run[n])
    ensures InDisk(c, run[n]) == run[n].inbound <==> !Unread(c, run, steps, n)
  {
    hide StepTo;
    hide InDisk;
    hide InEven;
    hide OwnersOk;
    if n == 0 {
      StartsDown(c, run[0]);
    } else {
      ExecutionInv(c, run, steps, n - 1);
      InvParts(c, run[n-1]);
      assert StepTo(c, run[n-1], steps[n-1], run[n]);
      InStep(c, run[n-1], steps[n-1], run[n]);
      UnreadAfter(c, run, steps, n);
      if !SavesIn(run[n-1], steps[n-1]) && !steps[n-1].Start? {
        InIsMemory(c, run, steps, n - 1);
      }
    }
  }

  lemma UnreadAfter(c: Codec, run: seq<State>, steps: seq<Step>, n: nat)
    requires 0 < n <= |steps| < |run|
    ensures SavesIn(run[n-1], steps[n-1]) ==> !Unread(c, run, steps, n)
    ensures steps[n-1].Start? ==> (Unread(c, run, steps, n) <==> !steps[n-1].inOpens && InDisk(c, run[n-1]) != map[])
    ensures !SavesIn(run[n-1], steps[n-1]) && !steps[n-1].Start? ==>
      (Unread(c, run, steps, n) <==> Unread(c, run, steps, n - 1))
  {
    hide InDisk;
    if Unread(c, run, steps, n) {
      var k: nat :| MissedRead(c, run, steps, k, n);
      assert k < n - 1 ==> MissedRead(c, run, steps, k, n - 1);
    }
    if Unread(c, run, steps, n - 1) && !SavesIn(run[n-1], steps[n-1]) && !steps[n-1].Start? {
      var k: nat :| MissedRead(c, run, steps, k, n - 1);
      assert MissedRead(c, run, steps, k, n);
    }
    if steps[n-1].Start? && !steps[n-1].inOpens && InDisk(c, run[n-1]) != map[] {
      assert MissedRead(c, run, steps, n - 1, n);
    }
  }

  /** With its mutex free the inbound ledger is on disk as it is in memory, but for one that the last
      start could not open. With its mutex free and no offer under way so is the outbound one, unless,
      and just when, the last save was of a copy that memory had by then left behind. */
  lemma DiskIsMemory(c: Codec, run: seq<State>, steps: seq<Step>, n: nat)
    requires IsExecution(c, run, steps) && n <= |steps| && run[n].phase == Up
    ensures run[n].inOwner == Nobody ==> (InDisk(c, run[n]) == run[n].inbound <==> !Unread(c, run, steps, n))
    ensures OutSettled(run[n]) ==> (OutDisk(c, run[n]) == run[n].outbound <==> !Lags(run, steps, n))
  {
    if run[n].inOwner == Nobody {
      InIsMemory(c, run, steps, n);
    }
    if OutSettled(run[n]) {
      OutIsMemory(c, run, steps, n);
    }
  }

  predicate IsOffer(step: Step) {
    step.Pay? && step.offer
  }

  predicate AboutOffer(cli: Cli) {
    cli.Encoding? || cli.SavingCopy? || (cli.Recording? && cli.offer) || (cli.Asking? && cli.offer)
  }

  lemma {:induction false} OffersNeedOffers(c: Codec, run: seq<State>, steps: seq<Step>, n: nat)
    requires IsExecution(c, run, steps) && n <= |steps|
    requires forall i :: 0 <= i < n ==> !IsOffer(steps[i])
    ensures !AboutOffer(run[n].cli)
  {
    if n > 0 {
      OffersNeedOffers(c, run, steps, n - 1);
      assert StepTo(c, run[n-1], steps[n-1], run[n]);
    }
  }

  /** Without offers, the disk is memory whenever the mutex is free. */
  lemma DiskIsMemoryWithoutOffers(c: Codec, run: seq<State>, steps: seq<Step>, n: nat)
    requires IsExecution(c, run, steps) && n <= |steps| && run[n].phase == Up && run[n].outOwner == Nobody
    requires forall i :: 0 <= i < n ==> !IsOffer(steps[i])
    ensures OutDisk(c, run[n]) == run[n].outbound
  {
    OffersNeedOffers(c, run, steps, n);
    if Lags(run, steps, n) {
      var j: nat, k: nat :| StaleSave(run, steps, j, k, n);
      OffersNeedOffers(c, run, steps, k);
      assert AboutOffer(run[k].cli);
    }
    DiskIsMemory(c, run, steps, n);
  }

  function Unpaid(a: Id): Ledger {
    map[a := NewPayment(None, None)]
  }

  function HalfSteps(c: Codec, id: Id): (steps: seq<Step>)
    ensures |steps| == 6
  {
    [Start([], true, true), SaveStart, Pay(id, None, None, false), Record,
     Die([], [Unpaid(id)]), PowerLoss(None, Some(c.encode(map[])))]
  }

  function HalfState(c: Codec, id: Id, i: nat): State {
    var none, file := Some(c.encode(map[])), Some(c.encode(Unpaid(id)));
    var s := State(Down, map[], map[], None, None, {None}, {None}, Nobody, Nobody, Ready, Waiting);
    var up := s.(phase := Up, outFile := none, outMay := {none});
    var paying := up.(cli := Recording(id, None, None, false), outOwner := CommandLine);
    if i == 0 then s
    else if i == 1 then s.(phase := Starting)
    else if i == 2 then up
    else if i == 3 then paying
    else if i == 4 then paying.(cli := SavingRecord(id), outbound := Unpaid(id))
    else if i == 5 then s.(outFile := file, outMay := {none, file})
    else s.(outFile := none, outMay := {none})
  }

  lemma HalfStarts(c: Codec, id: Id, i: nat)
    requires i < 4
    ensures StepTo(c, HalfState(c, id, i), HalfSteps(c, id)[i], HalfState(c, id, i + 1))
  {
  }

  lemma HalfEnds(c: Codec, id: Id, i: nat)
    requires 4 <= i < 6
    ensures StepTo(c, HalfState(c, id, i), HalfSteps(c, id)[i], HalfState(c, id, i + 1))
  {
    var none, file := Some(c.encode(map[])), Some(c.encode(Unpaid(id)));
    assert Encoded(c, [Unpaid(id)]) == {file} && {none} + {file} == {none, file};
    assert Encoded(c, []) == {};
    var before: set<Option<Bytes>> := {None};
    assert before + {} == before;
  }

  /** A save that got to its rename and no further, as the process died, can be undone by a power
      loss: its id was on disk, and is not any more. It was never asked for. */
  lemma HalfSaveCanBeUndone(c: Codec, id: Id) returns (run: seq<State>, steps: seq<Step>)
    requires RoundTrips(c)
    ensures IsExecution(c, run, steps) && |steps| == 6 && forall i :: 0 <= i < 6 ==> !steps[i].Ask?
    ensures id in OutDisk(c, run[5]) && !Sure(c, run[5], id) && id !in OutDisk(c, run[6])
  {
    run, steps := seq(7, i requires 0 <= i < 7 => HalfState(c, id, i)), HalfSteps(c, id);
    forall i | 0 <= i < 6 ensures StepTo(c, run[i], steps[i], run[i+1]) {
      hide StepTo;
      if i < 4 { HalfStarts(c, id, i); } else { HalfEnds(c, id, i); }
    }
    assert Some(c.encode(map[])) in run[5].outMay;
  }

  /** What it takes for ids to stay: a start that cannot open the file saves an empty ledger over it. */
  lemma StartKeepsIds(c: Codec, s: State, start: Step)
    requires RoundTrips(c) && start.Start? && Enabled(s, start)
    ensures var s' := After(c, After(c, s, start), SaveStart);
      OutDisk(c, s).Keys <= OutDisk(c, s').Keys <==> start.outOpens || OutDisk(c, s) == map[]
  {
    var s' := After(c, After(c, s, start), SaveStart);
    if !start.outOpens {
      assert OutDisk(c, s') == Reconcile(map[], start.recent) == map[];
      if OutDisk(c, s) != map[] {
        var id :| id in OutDisk(c, s);
        assert id !in OutDisk(c, s');
      }
    }
  }

  // ---------- one outcome per payment ----------

  predicate HasStatus(l: Ledger, id: Id, status: Status) {
    id in l && l[id].status == status
  }

  /** Every id is paid once, not by an offer, and all that LDK says of it agrees with `fate`. */
  ghost predicate Agrees(c: Codec, s: State, step: Step, fate: Id -> Status) {
    match step
    case Pay(id, _, _, offer) => !offer && id !in s.outbound
    case Ask(accepts) => !accepts && s.cli.Asking? ==> fate(s.cli.id) == Failed
    case Deliver(Sent(id, _)) => id in s.outbound ==> fate(id) == Succeeded
    case Deliver(NotSent(id)) => id in s.outbound ==> fate(id) == Failed
    case Start(recent, _, _) =>
      forall id :: HasStatus(OutDisk(c, s), id, Pending) && id !in recent ==> fate(id) == Failed
    case _ => true
  }

  ghost predicate Fated(l: Ledger, fate: Id -> Status) {
    forall id :: id in l ==> l[id].status == Pending || l[id].status == fate(id)
  }

  ghost predicate NoLessSettled(l: Ledger, m: Ledger) {
    forall id :: id in l ==> id in m && (l[id].status != Pending ==> m[id].status == l[id].status)
  }

  /** What memory, and the calls and events under way, have of the payments' outcomes. */
  ghost predicate FateInMemory(s: State, fate: Id -> Status) {
    && Fated(s.outbound, fate)
    && !AboutOffer(s.cli)
    && (s.cli.Recording? ==> s.cli.id !in s.outbound)
    && (s.cli.MarkingRejected? ==> fate(s.cli.id) == Failed)
    && (s.handler.Handling? && !OfInbound(s.handler.ev) && About(s.handler.ev) in s.outbound ==>
          fate(About(s.handler.ev)) == if s.handler.ev.Sent? then Succeeded else Failed)
  }

  ghost predicate FateOk(c: Codec, s: State, fate: Id -> Status) {
    && FateInMemory(s, fate)
    && (forall f :: f in s.outMay ==> Fated(Recover(c, f), fate))
    && (s.phase == Up ==> NoLessSettled(OutDisk(c, s), s.outbound))
  }

  lemma StartIsFated(l: Ledger, recent: seq<Id>, fate: Id -> Status)
    requires Fated(l, fate) && forall id :: HasStatus(l, id, Pending) && id !in recent ==> fate(id) == Failed
    ensures Fated(Reconcile(l, recent), fate)
  {
  }

  lemma MemoryKeepsFate(c: Codec, s: State, step: Step, fate: Id -> Status)
    requires OwnersOk(s) && FilesOk(s) && FateOk(c, s, fate) && Enabled(s, step) && Agrees(c, s, step, fate)
    ensures FateInMemory(After(c, s, step), fate)
    ensures After(c, s, step).phase == Up ==> NoLessSettled(s.outbound, After(c, s, step).outbound)
  {
    hide FateInMemory;
    hide NoLessSettled;
    hide Agrees;
    if step.Start? {
      StartKeepsFate(c, s, step, fate);
    } else {
      OthersKeepFate(c, s, step, fate);
    }
  }

  lemma StartKeepsFate(c: Codec, s: State, step: Step, fate: Id -> Status)
    requires FilesOk(s) && FateOk(c, s, fate) && Enabled(s, step) && Agrees(c, s, step, fate) && step.Start?
    requires OwnersOk(s)
    ensures FateInMemory(After(c, s, step), fate) && After(c, s, step).phase == Starting
  {
    hide Reconcile;
    StartIsFated(Recover(c, if step.outOpens then s.outFile else None), step.recent, fate);
  }

  lemma OthersKeepFate(c: Codec, s: State, step: Step, fate: Id -> Status)
    requires OwnersOk(s) && FateInMemory(s, fate) && Enabled(s, step) && Agrees(c, s, step, fate) && !step.Start?
    ensures FateInMemory(After(c, s, step), fate)
    ensures After(c, s, step).phase == Up ==> NoLessSettled(s.outbound, After(c, s, step).outbound)
  {
    hide Recover;
    hide HasStatus;
    hide Reconcile;
  }

  /** Without offers, what is being saved is what memory has. */
  lemma SavesAreMemory(s: State, l: Ledger)
    requires SavingOut(s, l) && !AboutOffer(s.cli)
    ensures l == s.outbound
  {
  }

  lemma UpWasUp(c: Codec, s: State, step: Step, s': State)
    requires StepTo(c, s, step, s') && s'.phase == Up
    ensures s.phase == Up || (step.SaveStart? && s'.outFile == Some(c.encode(s.outbound)))
  {
  }

  lemma FateKept(c: Codec, s: State, step: Step, s': State, fate: Id -> Status)
    requires RoundTrips(c) && OwnersOk(s) && FilesOk(s) && FateOk(c, s, fate)
    requires StepTo(c, s, step, s') && Agrees(c, s, step, fate)
    ensures FateOk(c, s', fate)
  {
    MemoryKeepsFate(c, s, step, fate);
    FilesComeFrom(c, s, step, s');
    hide After;
    hide OwnersOk;
    hide SavingOut;
    hide Fated;
    hide Recover;
    hide AboutOffer;
    forall f | f in s'.outMay && f !in s.outMay ensures Fated(Recover(c, f), fate) {
      var l :| SavingOut(s, l) && f == Some(c.encode(l));
      SavesAreMemory(s, l);
      SavedIsFound(c, l);
    }
    if s'.phase == Up {
      UpWasUp(c, s, step, s');
      SavedIsFound(c, s.outbound);
      if s'.outFile != s.outFile {
        var l :| SavingOut(s, l) && s'.outFile == Some(c.encode(l));
        SavesAreMemory(s, l);
      }
    }
  }

  ghost predicate AllFated(c: Codec, s: State, fate: Id -> Status) {
    forall f :: f in s.outMay ==> Fated(Recover(c, f), fate)
  }

  lemma {:induction false} FateHolds(c: Codec, run: seq<State>, steps: seq<Step>, fate: Id -> Status, n: nat)
    requires IsExecution(c, run, steps) && n <= |steps| && AllFated(c, run[0], fate)
    requires forall i :: 0 <= i < n ==> Agrees(c, run[i], steps[i], fate)
    ensures FateOk(c, run[n], fate)
  {
    hide After;
    hide Agrees;
    if n > 0 {
      FateHolds(c, run, steps, fate, n - 1);
      ExecutionInv(c, run, steps, n - 1);
      assert StepTo(c, run[n-1], steps[n-1], run[n]);
      FateKept(c, run[n-1], steps[n-1], run[n], fate);
    }
  }

  /** The payment has this status in the outbound file, whatever a power loss leaves of it. */
  ghost predicate SureOf(c: Codec, s: State, id: Id, status: Status) {
    forall f :: f in s.outMay ==> HasStatus(Recover(c, f), id, status)
  }

  lemma SavesHaveStatus(c: Codec, s: State, l: Ledger, fate: Id -> Status, id: Id, status: Status)
    requires FateOk(c, s, fate) && SavingOut(s, l) && HasStatus(OutDisk(c, s), id, status) && status != Pending
    requires s.phase == Starting ==> HasStatus(s.outbound, id, status)
    ensures HasStatus(l, id, status)
  {
    SavesAreMemory(s, l);
  }

  lemma StartHasStatus(l: Ledger, recent: seq<Id>, id: Id, status: Status)
    requires HasStatus(l, id, status) && status != Pending
    ensures HasStatus(Reconcile(l, recent), id, status)
  {
  }

  /** An outcome that no power loss could take off the disk stays there. */
  lemma {:induction false} StatusStays(c: Codec, run: seq<State>, steps: seq<Step>, fate: Id -> Status,
                                       i: nat, j: nat, id: Id, status: Status)
    requires IsExecution(c, run, steps) && i <= j <= |steps| && StartsKeep(c, run, steps, i, j)
    requires AllFated(c, run[0], fate)
    requires forall k :: 0 <= k < j ==> Agrees(c, run[k], steps[k], fate)
    requires status != Pending && SureOf(c, run[i], id, status)
    requires run[i].phase == Starting ==> HasStatus(run[i].outbound, id, status)
    ensures SureOf(c, run[j], id, status) && (run[j].phase == Starting ==> HasStatus(run[j].outbound, id, status))
    decreases j
  {
    hide After;
    hide OwnersOk;
    hide IdsOk;
    hide Recover;
    hide SavingOut;
    hide AllPreimagesOk;
    hide FateOk;
    hide Agrees;
    hide HasStatus;
    if i < j {
      var s, s' := run[j-1], run[j];
      StatusStays(c, run, steps, fate, i, j - 1, id, status);
      FateHolds(c, run, steps, fate, j - 1);
      ExecutionInv(c, run, steps, j - 1);
      assert StepTo(c, s, steps[j-1], s');
      FilesComeFrom(c, s, steps[j-1], s');
      forall f | f in s'.outMay && f !in s.outMay ensures HasStatus(Recover(c, f), id, status) {
        var l :| SavingOut(s, l) && f == Some(c.encode(l));
        SavesHaveStatus(c, s, l, fate, id, status);
        SavedIsFound(c, l);
      }
      if s'.phase == Starting {
        StartIsFirst(c, s, steps[j-1], s');
        FoundIsSome(OutDisk(c, s), id, status);
        StartHasStatus(OutDisk(c, s), steps[j-1].recent, id, status);
      }
    }
  }

  lemma FoundIsSome(l: Ledger, id: Id, status: Status)
    requires HasStatus(l, id, status)
    ensures l != map[]
  {
  }

  /** Unless the power goes, neither does an outcome that is on disk. */
  lemma {:induction false} StatusOnDiskStays(c: Codec, run: seq<State>, steps: seq<Step>, fate: Id -> Status,
                                             i: nat, j: nat, id: Id, status: Status)
    requires IsExecution(c, run, steps) && i <= j <= |steps| && StartsKeep(c, run, steps, i, j)
    requires AllFated(c, run[0], fate)
    requires forall k :: 0 <= k < j ==> Agrees(c, run[k], steps[k], fate)
    requires forall k :: i <= k < j ==> !steps[k].PowerLoss?
    requires status != Pending && HasStatus(OutDisk(c, run[i]), id, status)
    requires run[i].phase == Starting ==> HasStatus(run[i].outbound, id, status)
    ensures HasStatus(OutDisk(c, run[j]), id, status)
    ensures run[j].phase == Starting ==> HasStatus(run[j].outbound, id, status)
    decreases j
  {
    hide After;
    hide OwnersOk;
    hide FilesOk;
    hide IdsOk;
    hide Recover;
    hide SavingOut;
    hide AllPreimagesOk;
    hide FateOk;
    hide Agrees;
    hide HasStatus;
    if i < j {
      var s, s' := run[j-1], run[j];
      StatusOnDiskStays(c, run, steps, fate, i, j - 1, id, status);
      FateHolds(c, run, steps, fate, j - 1);
      ExecutionInv(c, run, steps, j - 1);
      assert StepTo(c, s, steps[j-1], s');
      FilesComeFrom(c, s, steps[j-1], s');
      if s'.outFile != s.outFile {
        var l :| SavingOut(s, l) && s'.outFile == Some(c.encode(l));
        SavesHaveStatus(c, s, l, fate, id, status);
        SavedIsFound(c, l);
      }
      if s'.phase == Starting {
        StartIsFirst(c, s, steps[j-1], s');
        FoundIsSome(OutDisk(c, s), id, status);
        StartHasStatus(OutDisk(c, s), steps[j-1].recent, id, status);
      }
    }
  }

  /** A payment's status on disk moves once, from Pending to the outcome it has, and never again,
      whatever starts there were before: unless a start fails to open the file, and unless the power
      goes before the outcome is out of its reach. */
  lemma StatusMovesOnce(c: Codec, run: seq<State>, steps: seq<Step>, fate: Id -> Status, i: nat, j: nat)
    requires IsExecution(c, run, steps) && i <= j <= |steps| && AllFated(c, run[0], fate)
    requires forall k :: 0 <= k < j ==> Agrees(c, run[k], steps[k], fate)
    requires StartsKeep(c, run, steps, i, j) && run[i].phase != Starting
    ensures forall id, status :: status != Pending && SureOf(c, run[i], id, status) ==> SureOf(c, run[j], id, status)
    ensures (forall k :: i <= k < j ==> !steps[k].PowerLoss?) ==> NoLessSettled(OutDisk(c, run[i]), OutDisk(c, run[j]))
    ensures AllFated(c, run[j], fate)
  {
    hide After;
    hide Agrees;
    hide SureOf;
    hide OutDisk;
    FateHolds(c, run, steps, fate, j);
    forall id, status | status != Pending && SureOf(c, run[i], id, status) ensures SureOf(c, run[j], id, status) {
      StatusStays(c, run, steps, fate, i, j, id, status);
    }
    if forall k :: i <= k < j ==> !steps[k].PowerLoss? {
      IdsGrow(c, run, steps, i, j);
      var l, m := OutDisk(c, run[i]), OutDisk(c, run[j]);
      forall id | id in l && l[id].status != Pending ensures m[id].status == l[id].status {
        StatusOnDiskStays(c, run, steps, fate, i, j, id, l[id].status);
      }
    }
  }

  /** While the process is up the file is what it is: what is on disk no power loss can take away. */
  lemma UpIsSure(c: Codec, run: seq<State>, steps: seq<Step>, n: nat, id: Id, status: Status)
    requires IsExecution(c, run, steps) && n <= |steps| && run[n].phase == Up
    ensures Sure(c, run[n], id) <==> id in OutDisk(c, run[n])
    ensures SureOf(c, run[n], id, status) <==> HasStatus(OutDisk(c, run[n]), id, status)
  {
    hide AllPreimagesOk;
    hide IdsOk;
    hide OwnersOk;
    ExecutionInv(c, run, steps, n);
  }

  /** Why an id may be paid only once: the second record wipes out the outcome of the first. */
  lemma PayingAgainUnsettles(l: Ledger, id: Id, secret: Option<Bytes>, amount: Option<nat>)
    ensures NoLessSettled(l, l[id := NewPayment(secret, amount)]) <==> (id in l ==> l[id].status.Pending?)
  {
    if id in l && !l[id].status.Pending? {
      assert l[id := NewPayment(secret, amount)][id].status != l[id].status;
    }
  }

  function BothUnpaid(a: Id, b: Id): Ledger {
    Unpaid(a)[b := NewPayment(None, None)]
  }

  function OnePaid(a: Id, b: Id, preimage: Bytes): Ledger {
    MarkSent(BothUnpaid(a, b), a, preimage)
  }

  /** An offer is paid as an event overtakes its copy of the ledger. */
  function StaleSteps(a: Id, b: Id, preimage: Bytes): (steps: seq<Step>)
    ensures |steps| == 9
  {
    [Start([a], true, true), SaveStart, Pay(b, None, None, true), Record, TakeCopy,
     Deliver(Sent(a, preimage)), Update, Save, SaveCopy]
  }

  function StaleRun(c: Codec, a: Id, b: Id, preimage: Bytes): (run: seq<State>)
    ensures |run| == 10
  {
    var ev := Sent(a, preimage);
    var file := Some(c.encode(Unpaid(a)));
    var s0 := State(Down, map[], map[], None, file, {None}, {file}, Nobody, Nobody, Ready, Waiting);
    var s1 := s0.(phase := Starting, outbound := Unpaid(a));
    var s2 := s1.(phase := Up);
    var s3 := s2.(cli := Recording(b, None, None, true), outOwner := CommandLine);
    var s4 := s2.(cli := Encoding(b), outbound := BothUnpaid(a, b));
    var s5 := s4.(cli := SavingCopy(b, BothUnpaid(a, b)));
    var s6 := s5.(handler := Handling(ev), outOwner := EventHandler);
    var s7 := s6.(handler := Saving(ev), outbound := OnePaid(a, b, preimage));
    var s8 := SaveOut(c, s5.(outbound := OnePaid(a, b, preimage)), OnePaid(a, b, preimage));
    var s9 := SaveOut(c, s8, BothUnpaid(a, b)).(cli := Asking(b, true));
    [s0, s1, s2, s3, s4, s5, s6, s7, s8, s9]
  }

  lemma StaleRunStarts(c: Codec, a: Id, b: Id, preimage: Bytes, i: nat)
    requires RoundTrips(c) && i < 5
    ensures StepTo(c, StaleRun(c, a, b, preimage)[i], StaleSteps(a, b, preimage)[i], StaleRun(c, a, b, preimage)[i+1])
  {
    assert Reconcile(Unpaid(a), [a]) == Unpaid(a);
  }

  lemma StaleRunEnds(c: Codec, a: Id, b: Id, preimage: Bytes, i: nat)
    requires RoundTrips(c) && 5 <= i < 9
    ensures StepTo(c, StaleRun(c, a, b, preimage)[i], StaleSteps(a, b, preimage)[i], StaleRun(c, a, b, preimage)[i+1])
  {
    assert OnePaid(a, b, preimage)[a] != BothUnpaid(a, b)[a];
  }

  /** Why not by an offer: paid while another payment succeeds, its stale copy of the ledger puts
      that payment back to pending on disk, where memory has it succeeded. */
  lemma OfferUnsettles(c: Codec, a: Id, b: Id, preimage: Bytes) returns (run: seq<State>, steps: seq<Step>)
    requires RoundTrips(c) && a != b
    ensures IsExecution(c, run, steps) && |steps| == 9 && OutSettled(run[9])
    ensures forall i :: 0 <= i < 9 && steps[i].Start? ==> steps[i].inOpens && steps[i].outOpens
    ensures OutDisk(c, run[8]) == run[9].outbound
    ensures run[9].outbound == map[a := Info(Some(preimage), None, Succeeded, None), b := NewPayment(None, None)]
    ensures OutDisk(c, run[9]) == map[a := NewPayment(None, None), b := NewPayment(None, None)]
  {
    run, steps := StaleRun(c, a, b, preimage), StaleSteps(a, b, preimage);
    assert IsExecution(c, run, steps) by {
      hide StepTo;
      forall i | 0 <= i < 9 ensures StepTo(c, run[i], steps[i], run[i+1]) {
        if i < 5 { StaleRunStarts(c, a, b, preimage, i); } else { StaleRunEnds(c, a, b, preimage, i); }
      }
    }
  }
}
