/** What an outside observer of the transport may believe, read off its trace alone.

    An auditor reads the trace entry by entry, remembers what it has seen, and keeps verdicts on
    all of it; the lemmas at the end say what those verdicts mean about positions in the trace. */
module TransportLog {
  import opened Basics
  import opened TransportTypes

  /** `unknown` says that the poisoning left an outcome unknown; `late` holds the written requests whose
      promise ended before the worker answered. */
  datatype Audit = Audit(
    accepted: map<nat, bool>,
    written: map<nat, bool>,
    settled: map<nat, Outcome>,
    started: bool,
    answered: map<nat, Body>,
    late: set<nat>,
    poisoned: bool,
    unknown: bool,
    last: Option<Reply>,
    // verdicts on the whole trace so far
    truthful: bool,
    onlySent: bool,
    fair: bool,
    bounded: bool,
    blameless: bool)

  const NEW_AUDIT := Audit(map[], map[], map[], false, map[], {}, false, false, None, true, true, true, true, true)

  predicate Handed(a: Audit, id: nat) {
    id in a.written && a.started
  }

  predicate ClaimsNotStarted(o: Outcome) {
    !o.Resolved? && o.execution.writeOutcome.NotStarted?
  }

  predicate Authoritative(o: Outcome) {
    || o.Resolved?
    || o.WorkerError?
    || (o.OutcomeUnknown? && o.execution == Execution(true, Unknown, ReconcileFirst))
  }

  predicate FromWorker(o: Outcome) {
    o.Resolved? || o.WorkerError?
  }

  /** The outcome is what the reply just taken off stdout says about this very id. */
  predicate Relays(last: Option<Reply>, id: nat, o: Outcome) {
    && last.Some? && last.value.Envelope? && last.value.id == id
    && match o
       case Resolved(v) => last.value.body == Value(v)
       case WorkerError(e, _) => last.value.body.StructuredError? && last.value.body.error == e
       case _ => false
  }

  /** The promise has not ended yet, and the report about the write is true: "not started" is not said
      of a body handed to a started child, nor anything else of a body never written; and the outcome
      of a definitive request, and of no other, is left unknown. */
  predicate Honest(a: Audit, id: nat, o: Outcome) {
    && id !in a.settled
    && (Handed(a, id) ==> !ClaimsNotStarted(o))
    && (Handed(a, id) && id in a.accepted && a.accepted[id] ==> Authoritative(o))
    && (!o.Resolved? && !ClaimsNotStarted(o) ==> id in a.written)
    && (o.OutcomeUnknown? ==> id in a.written && id in a.accepted && a.accepted[id])
  }

  /** A line that is a well-formed first answer to a request already written. */
  predicate FairLine(a: Audit, reply: Reply) {
    WellFormed(reply) && reply.id in a.written && reply.id !in a.answered
  }

  // One entry further.  The verdicts: the trace tells the truth; every line carries the id of a
  // request already written (`onlySent`); every line is a well-formed first answer (`fair`); at no
  // moment were more than 1024 late answers outstanding (`bounded`); and a worker fair and bounded
  // so far was never blamed for its output (`blameless`).

  function NoteAccepted(a: Audit, id: nat, definitive: bool): Audit {
    a.(accepted := a.accepted[id := definitive], last := None,
       truthful := a.truthful && !a.poisoned && id !in a.settled && forall k | k in a.accepted :: k < id)
  }

  function NoteWrote(a: Audit, id: nat): Audit {
    a.(written := a.written[id := a.started], last := None,
       truthful := a.truthful && !a.poisoned && id in a.accepted
                   && (id in a.settled ==> FromWorker(a.settled[id]))
                   && forall k | k in a.written :: k < id)
  }

  /** What may be said of a written body whose promise has ended. */
  predicate Stands(a: Audit, id: nat, o: Outcome) {
    && (ClaimsNotStarted(o) ==> o.WorkerError?)
    && (id in a.accepted && a.accepted[id] ==> Authoritative(o))
  }

  predicate ReportsHold(a: Audit) {
    forall id | id in a.written && id in a.settled :: Stands(a, id, a.settled[id])
  }

  function NoteStarted(a: Audit): Audit {
    a.(started := true, last := None, truthful := a.truthful && ReportsHold(a))
  }

  function NoteReceived(a: Audit, reply: Reply): Audit {
    a.(answered := if reply.Envelope? then a.answered[reply.id := reply.body] else a.answered,
       late := if reply.Envelope? then a.late - {reply.id} else a.late,
       last := Some(reply),
       truthful := a.truthful && !a.poisoned,
       onlySent := a.onlySent && (reply.Envelope? ==> reply.id in a.written),
       fair := a.fair && FairLine(a, reply))
  }

  predicate LeavesUnknown(rejected: map<nat, Outcome>) {
    exists id | id in rejected :: rejected[id].OutcomeUnknown?
  }

  function NotePoisoned(a: Audit, code: Code, rejected: map<nat, Outcome>): Audit {
    a.(poisoned := true, unknown := a.unknown || LeavesUnknown(rejected), settled := a.settled + rejected, last := None,
       truthful := a.truthful && !a.poisoned
                   && forall id | id in rejected ::
                     Honest(a, id, rejected[id]) && !FromWorker(rejected[id]) && rejected[id].code == code,
       blameless := a.blameless && (a.fair && a.bounded ==> !ResponseFault(code)))
  }

  predicate EndsEarly(a: Audit, id: nat) {
    id in a.written && id !in a.answered
  }

  function NoteSettled(a: Audit, id: nat, o: Outcome): Audit {
    var late := if EndsEarly(a, id) then a.late + {id} else a.late;
    a.(settled := a.settled[id := o], late := late, last := None,
       truthful := a.truthful && Honest(a, id, o) && (a.poisoned ==> id !in a.accepted)
                   && (o.WorkerError? ==> (ClaimsNotStarted(o) <==> id !in a.written))
                   && (FromWorker(o) ==> !a.poisoned && id in a.accepted && Relays(a.last, id, o)),
       bounded := a.bounded && |late| <= MAX_PENDING)
  }

  function Note(a: Audit, e: Entry): Audit {
    match e
    case Accepted(id, definitive) => NoteAccepted(a, id, definitive)
    case Wrote(id) => NoteWrote(a, id)
    case Started => NoteStarted(a)
    case Received(_, reply) => NoteReceived(a, reply)
    case Poisoned(code, rejected) => NotePoisoned(a, code, rejected)
    case Settled(id, o) => NoteSettled(a, id, o)
  }

  function AuditOf(t: seq<Entry>): Audit {
    if t == [] then NEW_AUDIT else Note(AuditOf(Front(t)), Last(t))
  }

  lemma AuditAppend(t: seq<Entry>, e: Entry)
    ensures AuditOf(t + [e]) == Note(AuditOf(t), e)
  {
    Snoc(t, e);
  }

  predicate Truthful(t: seq<Entry>) {
    AuditOf(t).truthful
  }

  // ---------------------------------------------------------------- reading a truthful trace

  lemma NeverForgiven(a: Audit, e: Entry)
    requires Note(a, e).truthful
    ensures a.truthful
  {
    match e
    case Accepted(_, _) =>
    case Wrote(_) =>
    case Started =>
    case Received(_, _) =>
    case Poisoned(_, _) =>
    case Settled(_, _) =>
  }

  predicate HonestAt(t: seq<Entry>, k: nat)
    requires k < |t|
  {
    Note(AuditOf(t[..k]), t[k]).truthful
  }

  /** Every prefix of a truthful trace is truthful, and stays so with the entry after it. */
  lemma {:induction false} TruthfulAt(t: seq<Entry>, k: nat)
    requires Truthful(t) && k < |t|
    ensures Truthful(t[..k]) && HonestAt(t, k)
  {
    if k == |t| - 1 {
      assert t[..k] == Front(t);
      NeverForgiven(AuditOf(Front(t)), Last(t));
    } else {
      NeverForgiven(AuditOf(Front(t)), Last(t));
      TruthfulAt(Front(t), k);
      assert Front(t)[..k] == t[..k];
    }
  }

  /** What the auditor has taken in about one entry. */
  predicate Took(a: Audit, e: Entry) {
    match e
    case Accepted(id, definitive) => id in a.accepted && a.accepted[id] == definitive
    case Wrote(id) => id in a.written
    case Started => a.started
    case Received(_, _) => true
    case Poisoned(_, rejected) =>
      a.poisoned && forall id | id in rejected :: id in a.settled && a.settled[id] == rejected[id]
    case Settled(id, o) => id in a.settled && a.settled[id] == o
  }

  lemma TakesIn(a: Audit, e: Entry)
    ensures Took(Note(a, e), e)
  {
  }

  lemma Remembers(a: Audit, e: Entry, earlier: Entry)
    requires Took(a, earlier) && Note(a, e).truthful
    ensures Took(Note(a, e), earlier)
  {
  }

  lemma {:induction false} Seen(t: seq<Entry>, k: nat)
    requires Truthful(t) && k < |t|
    ensures Took(AuditOf(t), t[k])
  {
    var a := AuditOf(Front(t));
    if k == |t| - 1 {
      TakesIn(a, Last(t));
    } else {
      Seen(Front(t), k);
      Remembers(a, Last(t), t[k]);
    }
  }

  /** The promises that end at one entry. */
  function Ends(e: Entry): map<nat, Outcome> {
    match e
    case Settled(id, o) => map[id := o]
    case Poisoned(_, rejected) => rejected
    case _ => map[]
  }

  lemma EndsOnce(a: Audit, e: Entry, id: nat)
    requires id in a.settled && Note(a, e).truthful
    ensures id !in Ends(e)
  {
  }

  lemma EndTaken(a: Audit, e: Entry, id: nat)
    requires Took(a, e) && id in Ends(e)
    ensures id in a.settled && a.settled[id] == Ends(e)[id]
  {
  }

  /** No promise ends twice. */
  lemma SettledOnce(t: seq<Entry>, i: nat, j: nat, id: nat)
    requires Truthful(t) && i < j < |t| && id in Ends(t[i])
    ensures id !in Ends(t[j])
  {
    TruthfulAt(t, j);
    Seen(t[..j], i);
    EndTaken(AuditOf(t[..j]), t[i], id);
    EndsOnce(AuditOf(t[..j]), t[j], id);
  }

  /** Request ids are handed out in increasing order, so none is used for two requests. */
  lemma AcceptedInOrder(t: seq<Entry>, i: nat, j: nat)
    requires Truthful(t) && i < j < |t| && t[i].Accepted? && t[j].Accepted?
    ensures t[i].id < t[j].id
  {
    TruthfulAt(t, j);
    Seen(t[..j], i);
  }

  /** Bodies leave in request order, so each is written at most once. */
  lemma WrittenInOrder(t: seq<Entry>, i: nat, j: nat)
    requires Truthful(t) && i < j < |t| && t[i].Wrote? && t[j].Wrote?
    ensures t[i].id < t[j].id
  {
    TruthfulAt(t, j);
    Seen(t[..j], i);
  }

  lemma EndsTruly(a: Audit, e: Entry, id: nat)
    requires Note(a, e).truthful && id in Ends(e) && Handed(a, id)
    ensures !ClaimsNotStarted(Ends(e)[id])
    ensures id in a.accepted && a.accepted[id] ==> Authoritative(Ends(e)[id])
  {
  }

  lemma WrittenLater(a: Audit, id: nat)
    requires NoteWrote(a, id).truthful && id in a.settled
    ensures FromWorker(a.settled[id])
  {
  }

  lemma StartedLater(a: Audit, id: nat)
    requires NoteStarted(a).truthful && id in a.written && id in a.settled
    ensures Stands(a, id, a.settled[id])
  {
  }

  /** Whenever the body is written and whenever the child starts, before or after: the report "not
      started" is at most that of a worker's error, and a definitive request ends with the worker's
      result, the worker's error, or an unknown outcome to be reconciled first. */
  lemma WrittenStands(t: seq<Entry>, k: nat, id: nat, w: nat, b: nat)
    requires Truthful(t) && k < |t| && w < |t| && b < |t|
    requires id in Ends(t[k]) && t[w] == Wrote(id) && t[b].Started?
    ensures ClaimsNotStarted(Ends(t[k])[id]) ==> Ends(t[k])[id].WorkerError?
    ensures (exists a: nat :: a < |t| && t[a] == Accepted(id, true)) ==> Authoritative(Ends(t[k])[id])
  {
    if w < k && b < k {
      HandedStands(t, k, id, w, b);
    } else if k < w && b < w {
      EndedBefore(t, k, id, w);
      WrittenLater(AuditOf(t[..w]), id);
    } else {
      EndedBefore(t, k, id, b);
      Seen(t[..b], w);
      StartedLater(AuditOf(t[..b]), id);
      if a: nat :| a < |t| && t[a] == Accepted(id, true) { AcceptedBeforeWritten(t, a, id, w, b); }
    }
  }

  lemma EndedBefore(t: seq<Entry>, k: nat, id: nat, m: nat)
    requires Truthful(t) && k < m < |t| && id in Ends(t[k])
    ensures HonestAt(t, m) && id in AuditOf(t[..m]).settled && AuditOf(t[..m]).settled[id] == Ends(t[k])[id]
  {
    TruthfulAt(t, m);
    Seen(t[..m], k);
    EndTaken(AuditOf(t[..m]), t[k], id);
  }

  lemma WrittenIsAccepted(a: Audit, id: nat)
    requires NoteWrote(a, id).truthful
    ensures id in a.accepted
  {
  }

  lemma NotTwice(a: Audit, id: nat, definitive: bool)
    requires id in a.accepted
    ensures !NoteAccepted(a, id, definitive).truthful
  {
  }

  /** A request written is accepted before, and once: what it was accepted as, the auditor knows. */
  lemma AcceptedBeforeWritten(t: seq<Entry>, a: nat, id: nat, w: nat, m: nat)
    requires Truthful(t) && a < |t| && w < m < |t| && t[a] == Accepted(id, true) && t[w] == Wrote(id)
    ensures id in AuditOf(t[..m]).accepted && AuditOf(t[..m]).accepted[id]
  {
    if a < m {
      TruthfulAt(t, m);
      Seen(t[..m], a);
    } else {
      TruthfulAt(t, w);
      WrittenIsAccepted(AuditOf(t[..w]), id);
      KeepsKnown(t, w, a, id);
      TruthfulAt(t, a);
      NotTwice(AuditOf(t[..a]), id, true);
    }
  }

  lemma NoteKnows(a: Audit, e: Entry, id: nat)
    ensures id in Note(a, e).accepted <==> id in a.accepted || (e.Accepted? && e.id == id)
    ensures id in Note(a, e).written <==> id in a.written || e == Wrote(id)
  {
    match e
    case Accepted(_, _) =>
    case Wrote(_) =>
    case Started =>
    case Received(_, _) =>
    case Poisoned(_, _) =>
    case Settled(_, _) =>
  }

  lemma StepKnown(t: seq<Entry>, n: nat, id: nat)
    requires n < |t|
    ensures id in AuditOf(t[..n]).accepted ==> id in AuditOf(t[..n + 1]).accepted
    ensures id in AuditOf(t[..n]).written ==> id in AuditOf(t[..n + 1]).written
  {
    assert t[..n + 1] == t[..n] + [t[n]];
    AuditAppend(t[..n], t[n]);
    NoteKnows(AuditOf(t[..n]), t[n], id);
  }

  /** What was accepted or written is known ever after. */
  lemma {:induction false} KeepsKnown(t: seq<Entry>, m: nat, n: nat, id: nat)
    requires m <= n <= |t|
    ensures id in AuditOf(t[..m]).accepted ==> id in AuditOf(t[..n]).accepted
    ensures id in AuditOf(t[..m]).written ==> id in AuditOf(t[..n]).written
    decreases n
  {
    if m < n {
      KeepsKnown(t, m, n - 1, id);
      StepKnown(t, n - 1, id);
    }
  }

  lemma HandedStands(t: seq<Entry>, k: nat, id: nat, w: nat, b: nat)
    requires Truthful(t) && k < |t| && w < k && b < k
    requires id in Ends(t[k]) && t[w] == Wrote(id) && t[b].Started?
    ensures !ClaimsNotStarted(Ends(t[k])[id])
    ensures (exists a: nat :: a < |t| && t[a] == Accepted(id, true)) ==> Authoritative(Ends(t[k])[id])
  {
    TruthfulAt(t, k);
    Seen(t[..k], w);
    Seen(t[..k], b);
    EndsTruly(AuditOf(t[..k]), t[k], id);
    if a: nat :| a < |t| && t[a] == Accepted(id, true) { AcceptedBeforeWritten(t, a, id, w, k); }
  }

  lemma NotesLast(a: Audit, e: Entry)
    ensures Note(a, e).last == if e.Received? then Some(e.reply) else None
  {
  }

  lemma {:induction false} LastReceived(t: seq<Entry>)
    requires AuditOf(t).last.Some?
    ensures t != [] && Last(t).Received? && Last(t).reply == AuditOf(t).last.value
  {
    NotesLast(AuditOf(Front(t)), Last(t));
  }

  /** A result or structured error is passed on from the line read just before, for the same id. */
  lemma ResultIsTheWorkers(t: seq<Entry>, k: nat)
    requires Truthful(t) && k < |t| && t[k].Settled? && FromWorker(t[k].outcome)
    ensures k > 0 && t[k - 1].Received? && Relays(Some(t[k - 1].reply), t[k].id, t[k].outcome)
  {
    TruthfulAt(t, k);
    LastReceived(t[..k]);
  }

  lemma SweepIsNotTheWorkers(a: Audit, e: Entry, id: nat)
    requires Note(a, e).truthful && id in Ends(e) && FromWorker(Ends(e)[id])
    ensures e.Settled?
  {
  }

  lemma ErrorSaysWhatWasWritten(a: Audit, id: nat, o: Outcome)
    requires NoteSettled(a, id, o).truthful && o.WorkerError?
    ensures ClaimsNotStarted(o) <==> id !in a.written
  {
  }

  /** A request that is written at any time to a child that starts at any time was reported as not
      started only if the worker answered it, with an error, before it was written. */
  lemma NotStartedIsTrue(t: seq<Entry>, k: nat, id: nat, w: nat, b: nat)
    requires Truthful(t) && k < |t| && w < |t| && b < |t|
    requires id in Ends(t[k]) && t[w] == Wrote(id) && t[b].Started?
    requires ClaimsNotStarted(Ends(t[k])[id])
    ensures t[k].Settled? && t[k].outcome.WorkerError? && k < w
    ensures k > 0 && t[k - 1].Received? && t[k - 1].reply.Envelope? && t[k - 1].reply.id == id
  {
    WrittenStands(t, k, id, w, b);
    TruthfulAt(t, k);
    SweepIsNotTheWorkers(AuditOf(t[..k]), t[k], id);
    ErrorSaysWhatWasWritten(AuditOf(t[..k]), id, t[k].outcome);
    if w < k {
      Seen(t[..k], w);
    }
    ResultIsTheWorkers(t, k);
  }

  /** The converse: an error that answers a request before it is written reports it as not started. */
  lemma EarlyErrorClaims(t: seq<Entry>, k: nat, w: nat)
    requires Truthful(t) && k < w < |t| && t[k].Settled? && t[k].outcome.WorkerError? && t[w] == Wrote(t[k].id)
    ensures ClaimsNotStarted(t[k].outcome)
  {
    TruthfulAt(t, k);
    ErrorSaysWhatWasWritten(AuditOf(t[..k]), t[k].id, t[k].outcome);
    if t[k].id in AuditOf(t[..k]).written {
      TruthfulAt(t, w);
      KeepsKnown(t, k, w, t[k].id);
    }
  }

  /** A definitive request that is written at any time to a child that starts at any time ends with the
      worker's result, the worker's error, or "unknown, reconcile first". */
  lemma DefinitiveIsAuthoritative(t: seq<Entry>, k: nat, id: nat, a: nat, w: nat, b: nat)
    requires Truthful(t) && k < |t| && a < |t| && w < |t| && b < |t|
    requires id in Ends(t[k]) && t[a] == Accepted(id, true) && t[w] == Wrote(id) && t[b].Started?
    ensures Authoritative(Ends(t[k])[id])
  {
    WrittenStands(t, k, id, w, b);
  }

  /** Once poisoned, nothing is accepted, written or read any more; a promise that still ends is that
      of a call turned away, never of an accepted request, and never ends with a worker's answer. */
  lemma PoisonIsFinal(t: seq<Entry>, i: nat, j: nat)
    requires Truthful(t) && i < j < |t| && t[i].Poisoned?
    ensures t[j].Started? || (t[j].Settled? && !FromWorker(t[j].outcome))
    ensures forall k: nat | k < j && t[j].Settled? && t[k].Accepted? :: t[k].id != t[j].id
  {
    TruthfulAt(t, j);
    Seen(t[..j], i);
    forall k: nat | k < j && t[j].Settled? && t[k].Accepted? ensures t[k].id != t[j].id {
      Seen(t[..j], k);
    }
  }
}
