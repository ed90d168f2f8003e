/**
  Payment records: what the command line, the event handler and the restart do to them, and the
  files they are kept in.

  The encoding of a ledger is a parameter: all that is used of it is that decoding undoes it.
*/
module Payments {
  import opened Directory

  type Id = Bytes

  datatype Status = Pending | Succeeded | Failed

  datatype Info = Info(preimage: Option<Bytes>, secret: Option<Bytes>, status: Status, amount: Option<nat>)

  type Ledger = map<Id, Info>

  datatype Codec = Codec(encode: Ledger -> Bytes, decode: Bytes -> Option<Ledger>)

  ghost predicate RoundTrips(c: Codec) {
    forall l: Ledger :: c.decode(c.encode(l)) == Some(l)
  }

  /** Read a ledger's file: one that is missing, cannot be opened or does not decode is taken to be empty. */
  function Recover(c: Codec, file: Option<Bytes>): Ledger {
    if file.None? then map[]
    else match c.decode(file.value) case Some(l) => l case None => map[]
  }

  // ---------- what happens to a ledger ----------

  function NewPayment(secret: Option<Bytes>, amount: Option<nat>): Info {
    Info(None, secret, Pending, amount)
  }

  function MarkSent(l: Ledger, id: Id, preimage: Bytes): Ledger {
    if id in l then l[id := l[id].(preimage := Some(preimage), status := Succeeded)] else l
  }

  function MarkFailed(l: Ledger, id: Id): Ledger {
    if id in l then l[id := l[id].(status := Failed)] else l
  }

  function Claim(l: Ledger, hash: Id, preimage: Option<Bytes>, secret: Option<Bytes>, amount: nat): Ledger {
    if hash in l then l[hash := l[hash].(status := Succeeded, preimage := preimage, secret := secret)]
    else l[hash := Info(preimage, secret, Succeeded, Some(amount))]
  }

  /** Payments no longer known to be under way have failed. */
  function Reconcile(l: Ledger, recent: seq<Id>): Ledger {
    map id | id in l :: if l[id].status.Pending? && id !in recent then l[id].(status := Failed) else l[id]
  }

  /** A succeeded payment has its preimage; a pending one has none yet. */
  ghost predicate PreimagesOk(l: Ledger) {
    forall id :: id in l ==>
      && (l[id].status.Succeeded? ==> l[id].preimage.Some?)
      && (l[id].status.Pending? ==> l[id].preimage.None?)
  }

  /** Which of an entry's parts the restart may change: only a status, and only from Pending. */
  lemma ReconcileKeeps(l: Ledger, recent: seq<Id>)
    ensures var m := Reconcile(l, recent);
      && m.Keys == l.Keys
      && (forall id :: id in l ==> m[id].(status := Pending) == l[id].(status := Pending))
      && (forall id :: id in l && !l[id].status.Pending? ==> m[id] == l[id])
      && (forall id :: id in m && m[id].status.Pending? ==> id in recent)
      && (forall id :: id in l && l[id].status.Pending? ==> (m[id].status.Pending? <==> id in recent))
  {
  }

  lemma ReconcileIdempotent(l: Ledger, recent: seq<Id>)
    ensures Reconcile(Reconcile(l, recent), recent) == Reconcile(l, recent)
  {
  }

  lemma NothingKeepsPreimages()
    ensures PreimagesOk(map[])
  {
  }

  lemma RecordKeepsPreimages(l: Ledger, id: Id, secret: Option<Bytes>, amount: Option<nat>)
    requires PreimagesOk(l)
    ensures PreimagesOk(l[id := NewPayment(secret, amount)])
  {
  }

  lemma SuccessKeepsPreimages(l: Ledger, id: Id, preimage: Bytes)
    requires PreimagesOk(l)
    ensures PreimagesOk(MarkSent(l, id, preimage))
  {
  }

  lemma FailureKeepsPreimages(l: Ledger, id: Id)
    requires PreimagesOk(l)
    ensures PreimagesOk(MarkFailed(l, id))
  {
  }

  lemma ReconcileKeepsPreimages(l: Ledger, recent: seq<Id>)
    requires PreimagesOk(l)
    ensures PreimagesOk(Reconcile(l, recent))
  {
  }

  /** A ledger that is saved is the ledger found again. */
  lemma SavedIsFound(c: Codec, l: Ledger)
    requires RoundTrips(c)
    ensures Recover(c, Some(c.encode(l))) == l
  {
  }

  // ---------- the records as the program holds them ----------

  /** A BOLT11 invoice: what is read from it, and whether payment parameters can be made of it. */
  datatype Invoice = Invoice(hash: Id, secret: Bytes, amount: Option<nat>, usable: bool)

  datatype Outcome = Refused | Initiated | Rejected | Aborted

  /** How a save ends: done, or with the end of the process, before the rename or after it. */
  datatype Save = Done | DiesBefore | DiesAfter

  /** The file decodes to this ledger. */
  ghost predicate Holds(c: Codec, file: Option<Bytes>, l: Ledger) {
    file.Some? && c.decode(file.value) == Some(l)
  }

  class Records {
    const codec: Codec
    const saves: nat -> Save           // how the saves end, as they come
    var nth: nat                       // how many there have been
    var inbound: Ledger
    var outbound: Ledger
    var inFile: Option<Bytes>
    var outFile: Option<Bytes>
    /** The ids LDK was asked to pay, each with the ledger that was on disk then. */
    ghost var asked: seq<(Id, Ledger)>

    /** Start from what is on disk: from nothing for a file that cannot be opened or does not decode. */
    constructor (c: Codec, inFile0: Option<Bytes>, outFile0: Option<Bytes>, inOpens: bool, outOpens: bool,
                 saves0: nat -> Save)
      ensures codec == c && inFile == inFile0 && outFile == outFile0 && asked == [] && saves == saves0 && nth == 0
      ensures inbound == if inOpens && inFile0.Some? && c.decode(inFile0.value).Some? then c.decode(inFile0.value).value
                         else map[]
      ensures outbound == if outOpens && outFile0.Some? && c.decode(outFile0.value).Some?
                          then c.decode(outFile0.value).value else map[]
    {
      codec, inFile, outFile, saves, nth := c, inFile0, outFile0, saves0, 0;
      inbound := Recover(c, if inOpens then inFile0 else None);
      outbound := Recover(c, if outOpens then outFile0 else None);
      asked := [];
    }

    /** The loop over the pending payments at startup, in any order, and the save after it. */
    method ReconcileAtStartup(recent: seq<Id>) returns (alive: bool)
      modifies this`outbound, this`outFile, this`nth
      ensures outbound.Keys == old(outbound).Keys
      ensures forall id :: id in outbound ==>
        var info := old(outbound)[id];
        outbound[id] == if info.status == Pending && id !in recent then info.(status := Failed) else info
      ensures outbound == Reconcile(old(outbound), recent)
      ensures nth == old(nth) + 1 && alive == saves(old(nth)).Done?
      ensures outFile == if saves(old(nth)).DiesBefore? then old(outFile) else Some(codec.encode(outbound))
    {
      var todo := outbound.Keys;
      while todo != {}
        invariant todo <= outbound.Keys == old(outbound).Keys && outFile == old(outFile) && nth == old(nth)
        invariant forall id :: id in todo ==> outbound[id] == old(outbound)[id]
        invariant forall id :: id in outbound && id !in todo ==> outbound[id] == Reconcile(old(outbound), recent)[id]
        decreases todo
      {
        var id :| id in todo;
        if outbound[id].status.Pending? && id !in recent {
          outbound := outbound[id := outbound[id].(status := Failed)];
        }
        todo := todo - {id};
      }
      alive := SaveOutbound();
    }

    /** A write that fails ends the process, with the old ledger on disk or the new one. */
    method SaveOutbound() returns (alive: bool)
      modifies this`outFile, this`nth
      ensures nth == old(nth) + 1 && alive == saves(old(nth)).Done?
      ensures outFile == if saves(old(nth)).DiesBefore? then old(outFile) else Some(codec.encode(outbound))
    {
      var save := saves(nth);
      nth := nth + 1;
      if save != DiesBefore {
        outFile := Some(codec.encode(outbound));
      }
      alive := save == Done;
    }

    method SaveInbound() returns (alive: bool)
      modifies this`inFile, this`nth
      ensures nth == old(nth) + 1 && alive == saves(old(nth)).Done?
      ensures inFile == if saves(old(nth)).DiesBefore? then old(inFile) else Some(codec.encode(inbound))
    {
      var save := saves(nth);
      nth := nth + 1;
      if save != DiesBefore {
        inFile := Some(codec.encode(inbound));
      }
      alive := save == Done;
    }

    /** What both ways of paying at once share: record, save, ask, and record a rejection. */
    method Submit(id: Id, secret: Option<Bytes>, amount: Option<nat>, accepts: bool, panics: bool) returns (r: Outcome)
      requires RoundTrips(codec)
      modifies this`outbound, this`outFile, this`nth, this`asked
      ensures r == if saves(old(nth)) != Done then Aborted
                   else if accepts then (if panics then Aborted else Initiated)
                   else if saves(old(nth) + 1) == Done then Rejected else Aborted
      ensures Recorded(old(outbound), id, Info(preimage := None, secret := secret, status := Pending, amount := amount),
                       accepts, old(nth), old(outFile), old(asked))
    {
      outbound := outbound[id := NewPayment(secret, amount)];
      var alive := SaveOutbound();
      if !alive {
        return Aborted;
      }
      asked := asked + [(id, Recover(codec, outFile))];
      if accepts {
        return if panics then Aborted else Initiated;
      }
      outbound := MarkFailed(outbound, id);
      alive := SaveOutbound();
      r := if alive then Rejected else Aborted;
    }

    /** What paying leaves behind, in memory, on disk and at LDK, if the ledger was `was` and the
        payment is recorded as `paid`; once it is rejected it has failed. */
    ghost predicate Recorded(was: Ledger, id: Id, paid: Info, accepts: bool, first: nat, file: Option<Bytes>,
                             before: seq<(Id, Ledger)>)
      reads this
    {
      var failed := paid.(status := Failed);
      && outbound == was[id := if saves(first) == Done && !accepts then failed else paid]
      && (saves(first) == DiesBefore ==> outFile == file)
      && (saves(first) == DiesAfter || (saves(first) == Done && (accepts || saves(first + 1) == DiesBefore)) ==>
            Holds(codec, outFile, was[id := paid]))
      && (saves(first) == Done && !accepts && saves(first + 1) != DiesBefore ==>
            Holds(codec, outFile, was[id := failed]))
      && asked == (if saves(first) == Done then before + [(id, was[id := paid])] else before)
    }

    /** Pay an invoice. One with no amount, once LDK has taken it, ends the process as it is announced. */
    method SendPayment(invoice: Invoice, required: Option<nat>, accepts: bool) returns (r: Outcome)
      requires RoundTrips(codec)
      modifies this`outbound, this`outFile, this`nth, this`asked
      ensures r == Refused <==>
        (if invoice.amount.None? || invoice.amount == Some(0) then required.None? || !invoice.usable
         else (required.Some? && required != invoice.amount) || !invoice.usable)
      ensures r == Refused ==>
        outbound == old(outbound) && outFile == old(outFile) && asked == old(asked) && nth == old(nth)
      ensures r != Refused ==>
        r == if saves(old(nth)) != Done then Aborted
             else if accepts then (if invoice.amount.None? then Aborted else Initiated)
             else if saves(old(nth) + 1) == Done then Rejected else Aborted
      ensures r != Refused ==>
        var paid := Info(preimage := None, secret := Some(invoice.secret), status := Pending, amount := invoice.amount);
        Recorded(old(outbound), invoice.hash, paid, accepts, old(nth), old(outFile), old(asked))
    {
      var zero := invoice.amount.None? || invoice.amount == Some(0);
      if zero {
        if required.None? {
          return Refused;
        }
      } else if required.Some? && invoice.amount != required {
        return Refused;
      }
      if !invoice.usable {
        return Refused;
      }
      r := Submit(invoice.hash, Some(invoice.secret), invoice.amount, accepts, invoice.amount.None?);
    }

    /** A spontaneous payment: its id is made of a preimage drawn for it. */
    method Keysend(id: Id, amount: nat, accepts: bool) returns (r: Outcome)
      requires RoundTrips(codec)
      modifies this`outbound, this`outFile, this`nth, this`asked
      ensures r == if saves(old(nth)) != Done then Aborted
                   else if accepts then Initiated
                   else if saves(old(nth) + 1) == Done then Rejected else Aborted
      ensures var paid := Info(preimage := None, secret := None, status := Pending, amount := Some(amount));
        Recorded(old(outbound), id, paid, accepts, old(nth), old(outFile), old(asked))
    {
      r := Submit(id, None, Some(amount), accepts, false);
    }

    /** LDK made an invoice, or did not: the ledger is saved either way. */
    method GetInvoice(made: Option<(Id, Bytes)>, amount: nat) returns (alive: bool)
      modifies this`inbound, this`inFile, this`nth
      ensures made.None? ==> inbound == old(inbound)
      ensures made.Some? ==>
        inbound == old(inbound)[made.value.0 := Info(preimage := None, secret := Some(made.value.1),
                                                     status := Pending, amount := Some(amount))]
      ensures nth == old(nth) + 1 && alive == saves(old(nth)).Done?
      ensures inFile == if saves(old(nth)).DiesBefore? then old(inFile) else Some(codec.encode(inbound))
    {
      if made.Some? {
        inbound := inbound[made.value.0 := NewPayment(Some(made.value.1), Some(amount))];
      }
      alive := SaveInbound();
    }

    /** A payment that came in: its record keeps the amount it was made with, if there is one. */
    method OnClaimed(hash: Id, preimage: Option<Bytes>, secret: Option<Bytes>, amount: nat) returns (alive: bool)
      modifies this`inbound, this`inFile, this`nth
      ensures var due := if hash in old(inbound) then old(inbound)[hash].amount else Some(amount);
        inbound == old(inbound)[hash := Info(preimage := preimage, secret := secret,
                                             status := Succeeded, amount := due)]
      ensures inbound == Claim(old(inbound), hash, preimage, secret, amount)
      ensures nth == old(nth) + 1 && alive == saves(old(nth)).Done?
      ensures inFile == if saves(old(nth)).DiesBefore? then old(inFile) else Some(codec.encode(inbound))
    {
      if hash in inbound {
        inbound := inbound[hash := inbound[hash].(status := Succeeded)];
        inbound := inbound[hash := inbound[hash].(preimage := preimage)];
        inbound := inbound[hash := inbound[hash].(secret := secret)];
      } else {
        inbound := inbound[hash := Info(preimage, secret, Succeeded, Some(amount))];
      }
      alive := SaveInbound();
    }

    /** The loop over all payments for the one that was sent. An event without an id ends the
        process at the first payment there is. */
    method OnSent(id: Option<Id>, preimage: Bytes) returns (alive: bool)
      modifies this`outbound, this`outFile, this`nth
      ensures id.Some? && id.value in old(outbound) ==>
        var was := old(outbound)[id.value];
        outbound == old(outbound)[id.value := Info(preimage := Some(preimage), secret := was.secret,
                                                   status := Succeeded, amount := was.amount)]
      ensures id.None? || id.value !in old(outbound) ==> outbound == old(outbound)
      ensures id.Some? ==> outbound == MarkSent(old(outbound), id.value, preimage)
      ensures id.None? && old(outbound) != map[] ==> !alive && outFile == old(outFile) && nth == old(nth)
      ensures id.Some? || old(outbound) == map[] ==>
        && nth == old(nth) + 1 && alive == saves(old(nth)).Done?
        && outFile == if saves(old(nth)).DiesBefore? then old(outFile) else Some(codec.encode(outbound))
    {
      var todo := outbound.Keys;
      while todo != {}
        invariant todo <= outbound.Keys && outFile == old(outFile) && nth == old(nth)
        invariant id.None? ==> outbound == old(outbound) && todo == outbound.Keys
        invariant id.Some? && id.value in todo ==> outbound == old(outbound)
        invariant id.Some? && id.value !in todo ==> outbound == MarkSent(old(outbound), id.value, preimage)
        decreases todo
      {
        var each :| each in todo;
        if id.None? {
          return false;
        }
        if each == id.value {
          outbound := outbound[each := outbound[each].(preimage := Some(preimage))];
          outbound := outbound[each := outbound[each].(status := Succeeded)];
        }
        todo := todo - {each};
      }
      alive := SaveOutbound();
    }

    method OnFailed(id: Id) returns (alive: bool)
      modifies this`outbound, this`outFile, this`nth
      ensures id in old(outbound) ==>
        var was := old(outbound)[id];
        outbound == old(outbound)[id := Info(preimage := was.preimage, secret := was.secret,
                                             status := Failed, amount := was.amount)]
      ensures id !in old(outbound) ==> outbound == old(outbound)
      ensures outbound == MarkFailed(old(outbound), id)
      ensures nth == old(nth) + 1 && alive == saves(old(nth)).Done?
      ensures outFile == if saves(old(nth)).DiesBefore? then old(outFile) else Some(codec.encode(outbound))
    {
      if id in outbound {
        outbound := outbound[id := outbound[id].(status := Failed)];
      }
      alive := SaveOutbound();
    }
  }
}
