/**
 The certificate ownership ledger (frontend/services/certificateOwnershipService.ts): an index of
 current owners beside a log of transfers, saved together in one storage entry.
 */
module Ownership {
  import opened Wrappers

  datatype Transfer = Transfer(certificateId: string, from_: string, to: string, actor: string, occurredAt: int)

  datatype Store = Store(owners: map<string, string>, transfers: seq<Transfer>)

  datatype Answer = Transferred(transfer: Transfer) | InvalidAddress | NotTheOwner | SameOwner | NotSaved

  /** `^G[A-Z2-7]{55}$`. */
  predicate StellarPublicKey(key: string) {
    |key| == 56 && key[0] == 'G' && forall i :: 1 <= i < 56 ==> 'A' <= key[i] <= 'Z' || '2' <= key[i] <= '7'
  }

  function GetCertificateOwner(s: Store, certificateId: string, fallback: string): string {
    if certificateId in s.owners then s.owners[certificateId] else fallback
  }

  function Of(transfers: seq<Transfer>, certificateId: string): seq<Transfer> {
    if transfers == [] then []
    else
      var last := transfers[|transfers| - 1];
      Of(transfers[..|transfers| - 1], certificateId) + if last.certificateId == certificateId then [last] else []
  }

  function Reverse<T>(xs: seq<T>): (r: seq<T>)
    ensures |r| == |xs| && forall i :: 0 <= i < |xs| ==> r[i] == xs[|xs| - 1 - i]
  {
    if xs == [] then [] else [xs[|xs| - 1]] + Reverse(xs[..|xs| - 1])
  }

  /** Newest first. */
  function GetHistory(s: Store, certificateId: string): seq<Transfer> { Reverse(Of(s.transfers, certificateId)) }

  /** The saved store afterwards, and the answer. `saves` says whether the browser accepts the write. */
  function TransferOwnership(s: Store, certificateId: string, expectedOwner: string, actor: string, newOwner: string, now: int, saves: bool): (Store, Answer) {
    if !StellarPublicKey(newOwner) then (s, InvalidAddress)
    else
      var currentOwner := GetCertificateOwner(s, certificateId, expectedOwner);
      if currentOwner != expectedOwner || currentOwner != actor then (s, NotTheOwner)
      else if newOwner == currentOwner then (s, SameOwner)
      else if !saves then (s, NotSaved)
      else
        var transfer := Transfer(certificateId, currentOwner, newOwner, actor, now);
        (Store(s.owners[certificateId := newOwner], s.transfers + [transfer]), Transferred(transfer))
  }

  /** The storage entry behind the service. */
  class OwnershipService {
    var saved: Store

    constructor ()
      ensures saved == Store(map[], [])
    {
      saved := Store(map[], []);
    }

    method Confirm(certificateId: string, expectedOwner: string, actor: string, newOwner: string, now: int, saves: bool) returns (answer: Answer)
      modifies this
      ensures (saved, answer) == TransferOwnership(old(saved), certificateId, expectedOwner, actor, newOwner, now, saves)
    {
      if !StellarPublicKey(newOwner) {
        return InvalidAddress;
      }
      var store := saved;
      var currentOwner := GetCertificateOwner(store, certificateId, expectedOwner);
      if currentOwner != expectedOwner || currentOwner != actor {
        return NotTheOwner;
      }
      if newOwner == currentOwner {
        return SameOwner;
      }
      var transfer := Transfer(certificateId, currentOwner, newOwner, actor, now);
      store := store.(owners := store.owners[certificateId := newOwner]);
      store := store.(transfers := store.transfers + [transfer]);
      if !saves {
        return NotSaved;
      }
      saved := store;
      answer := Transferred(transfer);
    }
  }

  // --- What every sequence of transfers keeps -------------------------------------------------

  datatype Attempt = Attempt(certificateId: string, expectedOwner: string, actor: string, newOwner: string, now: int, saves: bool)

  function Next(s: Store, a: Attempt): Store {
    TransferOwnership(s, a.certificateId, a.expectedOwner, a.actor, a.newOwner, a.now, a.saves).0
  }

  function Run(s: Store, attempts: seq<Attempt>): Store {
    if attempts == [] then s else Next(Run(s, attempts[..|attempts| - 1]), attempts[|attempts| - 1])
  }

  /** A chain of custody: each transfer starts where the one before ended, by its owner's hand, to someone else's valid address. */
  predicate Chain(log: seq<Transfer>) {
    forall i :: 0 <= i < |log| ==>
      log[i].from_ != log[i].to && log[i].actor == log[i].from_ && StellarPublicKey(log[i].to) && (i > 0 ==> log[i].from_ == log[i - 1].to)
  }

  /** Replaying the log from the start. */
  function Replay(transfers: seq<Transfer>): map<string, string> {
    if transfers == [] then map[]
    else
      var last := transfers[|transfers| - 1];
      Replay(transfers[..|transfers| - 1])[last.certificateId := last.to]
  }

  lemma {:induction false} ReplayIsLast(transfers: seq<Transfer>, certificateId: string)
    ensures var log := Of(transfers, certificateId);
            && (certificateId in Replay(transfers) <==> log != [])
            && (log != [] ==> Replay(transfers)[certificateId] == log[|log| - 1].to)
  {
    if transfers != [] {
      ReplayIsLast(transfers[..|transfers| - 1], certificateId);
    }
  }

  ghost predicate Consistent(s: Store) {
    s.owners == Replay(s.transfers) && forall c :: Chain(Of(s.transfers, c))
  }

  lemma OfSnoc(transfers: seq<Transfer>, t: Transfer, certificateId: string)
    ensures Of(transfers + [t], certificateId) == Of(transfers, certificateId) + if t.certificateId == certificateId then [t] else []
  {
  }

  /** What an attempt appends: a transfer by the recorded owner, or by anyone if none is recorded. */
  lemma AttemptAppends(s: Store, a: Attempt)
    requires Next(s, a) != s
    ensures var t := Transfer(a.certificateId, a.actor, a.newOwner, a.actor, a.now);
            && Next(s, a) == Store(s.owners[t.certificateId := t.to], s.transfers + [t])
            && t.from_ != t.to && StellarPublicKey(t.to)
            && (t.certificateId in s.owners ==> s.owners[t.certificateId] == t.from_)
  {
    hide StellarPublicKey;
  }

  lemma ChainGrows(log: seq<Transfer>, t: Transfer)
    requires Chain(log) && t.from_ != t.to && t.actor == t.from_ && StellarPublicKey(t.to)
    requires log != [] ==> log[|log| - 1].to == t.from_
    ensures Chain(log + [t])
  {
    hide StellarPublicKey;
  }

  lemma ReplaySnoc(transfers: seq<Transfer>, t: Transfer)
    ensures Replay(transfers + [t]) == Replay(transfers)[t.certificateId := t.to]
  {
    assert (transfers + [t])[..|transfers|] == transfers;
  }

  /** The log of one certificate after a transfer of this or another one. */
  lemma LogStaysChain(s: Store, t: Transfer, c: string)
    requires s.owners == Replay(s.transfers) && Chain(Of(s.transfers, c))
    requires t.from_ != t.to && t.actor == t.from_ && StellarPublicKey(t.to)
    requires t.certificateId in s.owners ==> s.owners[t.certificateId] == t.from_
    ensures Chain(Of(s.transfers + [t], c))
  {
    OfSnoc(s.transfers, t, c);
    ReplayIsLast(s.transfers, c);
    hide Chain, StellarPublicKey, Replay, Of;
    if t.certificateId == c { ChainGrows(Of(s.transfers, c), t); } else { assert Of(s.transfers, c) + [] == Of(s.transfers, c); }
  }

  lemma TransferKeepsConsistent(s: Store, a: Attempt)
    requires Consistent(s)
    ensures Consistent(Next(s, a))
  {
    if Next(s, a) != s {
      AttemptAppends(s, a);
      hide Next, Chain, StellarPublicKey, Replay, Of;
      var t := Transfer(a.certificateId, a.actor, a.newOwner, a.actor, a.now);
      ReplaySnoc(s.transfers, t);
      forall c ensures Chain(Of(s.transfers + [t], c)) {
        LogStaysChain(s, t, c);
      }
    }
  }

  /**
   After any sequence of successful and failed transfers from an empty store: each certificate's log
   is a chain of custody, the index is the replay of the log, and the owner shown is the one the
   newest history entry names.
   */
  lemma {:induction false} LedgerAlongRuns(attempts: seq<Attempt>, certificateId: string, fallback: string)
    ensures var s := Run(Store(map[], []), attempts);
            && Consistent(s) && Chain(Of(s.transfers, certificateId))
            && GetCertificateOwner(s, certificateId, fallback) ==
                 var history := GetHistory(s, certificateId); if history == [] then fallback else history[0].to
  {
    var s0 := Store(map[], []);
    if attempts != [] {
      LedgerAlongRuns(attempts[..|attempts| - 1], certificateId, fallback);
      TransferKeepsConsistent(Run(s0, attempts[..|attempts| - 1]), attempts[|attempts| - 1]);
    }
    ReplayIsLast(Run(s0, attempts).transfers, certificateId);
  }

  /**
   When a transfer goes through: exactly if asked for by the recorded owner (or, for a certificate
   without log, by the assumed one), to another address of 56 letters A-Z and digits 2-7 that starts
   with G, and saved. Otherwise nothing changes, and what is wrong first is answered.
   */
  lemma WhenTransferred(s: Store, a: Attempt)
    ensures var (s', answer) := TransferOwnership(s, a.certificateId, a.expectedOwner, a.actor, a.newOwner, a.now, a.saves);
            var valid := |a.newOwner| == 56 && a.newOwner[0] == 'G' &&
                         forall i :: 0 <= i < 56 ==> 'A' <= a.newOwner[i] <= 'Z' || '2' <= a.newOwner[i] <= '7';
            var owns := a.actor == a.expectedOwner && (a.certificateId in s.owners ==> s.owners[a.certificateId] == a.actor);
            && (answer.Transferred? <==> a.saves && valid && a.newOwner != a.actor && owns)
            && (answer.InvalidAddress? <==> !valid)
            && (answer.NotTheOwner? <==> valid && !owns)
            && (answer.SameOwner? <==> valid && owns && a.newOwner == a.actor)
            && (!answer.Transferred? ==> s' == s)
            && (answer.Transferred? ==>
                  && answer.transfer == Transfer(a.certificateId, a.actor, a.newOwner, a.actor, a.now)
                  && GetCertificateOwner(s', a.certificateId, a.expectedOwner) == a.newOwner
                  && s'.transfers == s.transfers + [answer.transfer]
                  && forall c :: c != a.certificateId ==> (c in s'.owners <==> c in s.owners) && (c in s.owners ==> s'.owners[c] == s.owners[c]))
  {
  }
}
