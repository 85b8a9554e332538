/** The latest Paper Boat receipt: what a snapshot must be to be parsed, and what the feed keeps over
    snapshots, refusals and degradations. */
module ReceiptFeed {
  import opened Basics
  import Decimal

  const MAX_RECORD_ID := 0xFFFF_FFFF_FFFF_FFFF

  datatype Status = Pending | Delivered | Degraded | Refused

  datatype Receipt = Receipt(eventId: string, recordId: string, room: string, processedAt: string, streamSequence: int,
                             sha256: string)

  datatype Snapshot = Snapshot(eventId: string, senderRoom: string, sequence: int, status: Status,
                               receipt: Option<Receipt>, diagnostic: Option<string>)

  // ---------------------------------------------------------------- parsing

  /** The checks this model does not look into: UUID and RFC 3339 syntax. */
  datatype Syntax = Syntax(isUuid: string -> bool, isTimestamp: string -> bool)

  /** An envelope of the receipt projection.  `inOrder` says that its schema, meta fields, scope, hops
      and visibility are as they must be. */
  datatype Envelope = Envelope(inOrder: bool, eventId: string, senderRoom: string, sequence: int,
                               status: Option<Status>, receipt: Option<Receipt>, diagnostic: Option<string>)

  /** `u64` as Rust reads it: digits, with an optional plus sign. */
  function ReadU64(s: string): Option<nat> {
    var digits := if s != "" && s[0] == '+' then s[1..] else s;
    if digits == "" || !Decimal.AllDigits(digits) || Decimal.Value(digits) > MAX_RECORD_ID then None
    else Some(Decimal.Value(digits))
  }

  predicate RecordIdAccepted(s: string) {
    var id := ReadU64(s);
    id.Some? && id.value != 0 && Decimal.Print(id.value) == s
  }

  /** Exactly the canonical decimals of positive 64-bit numbers pass. */
  lemma RecordIdIsCanonical(s: string)
    ensures RecordIdAccepted(s) <==> Decimal.Canonical(s) && 1 <= Decimal.Value(s) <= MAX_RECORD_ID
  {
    if Decimal.Canonical(s) {
      assert Decimal.IsDigit(s[0]);
      Decimal.PrintOfValue(s);
    }
    if RecordIdAccepted(s) {
      Decimal.PrintIsCanonical(ReadU64(s).value);
      Decimal.ValueOfPrint(ReadU64(s).value);
    }
  }

  predicate IsHash(s: string) {
    |s| == 64 && forall i :: 0 <= i < |s| ==> Decimal.IsDigit(s[i]) || 'a' <= s[i] <= 'f'
  }

  predicate ReceiptAccepted(x: Syntax, e: Envelope, r: Receipt) {
    && x.isUuid(r.eventId) && RecordIdAccepted(r.recordId) && r.room != "" && x.isTimestamp(r.processedAt)
    && IsHash(r.sha256)
    && r.eventId == e.eventId && r.room == e.senderRoom && r.streamSequence > 0 && r.streamSequence == e.sequence
  }

  function Parse(x: Syntax, e: Envelope): Option<Snapshot> {
    if !e.inOrder || !x.isUuid(e.eventId) || e.status.None? then None
    else if e.receipt.Some? && !ReceiptAccepted(x, e, e.receipt.value) then None
    else if e.status.value.Delivered? && (e.receipt.None? || e.diagnostic.Some?) then None
    else if !e.status.value.Delivered? && (e.receipt.Some? || e.diagnostic.None?) then None
    else Some(Snapshot(e.eventId, e.senderRoom, e.sequence, e.status.value, e.receipt, e.diagnostic))
  }

  /** What a parsed snapshot guarantees: delivered exactly with a receipt, which carries the identity,
      room and order of its own envelope; and a diagnostic exactly without one. */
  predicate Coherent(s: Snapshot) {
    && s.status.Delivered? == s.receipt.Some?
    && s.diagnostic.Some? == s.receipt.None?
    && (s.receipt.Some? ==> s.receipt.value.eventId == s.eventId && s.receipt.value.room == s.senderRoom
                            && s.receipt.value.streamSequence == s.sequence > 0)
  }

  lemma ParsedIsCoherent(x: Syntax, e: Envelope)
    requires Parse(x, e).Some?
    ensures Coherent(Parse(x, e).value)
    ensures e.receipt.Some? ==> Decimal.Canonical(e.receipt.value.recordId)
  {
    if e.receipt.Some? { RecordIdIsCanonical(e.receipt.value.recordId); }
  }

  /** An envelope is parsed exactly when all is in order with it and what it says is coherent: delivered
      exactly with a fit receipt, which is its own, and with a diagnostic exactly without one. */
  lemma ParsedIff(x: Syntax, e: Envelope, s: Snapshot)
    ensures Parse(x, e) == Some(s)
            <==> && e.inOrder && x.isUuid(e.eventId) && e.status == Some(s.status) && Coherent(s)
                 && s == Snapshot(e.eventId, e.senderRoom, e.sequence, s.status, e.receipt, e.diagnostic)
                 && (e.receipt.Some? ==> ReceiptFits(x, e.receipt.value))
  {
    if e.receipt.Some? { FitsIff(x, e.receipt.value); }
  }

  lemma FitsIff(x: Syntax, r: Receipt)
    ensures ReceiptFits(x, r)
            <==> x.isUuid(r.eventId) && RecordIdAccepted(r.recordId) && r.room != "" && x.isTimestamp(r.processedAt)
                 && IsHash(r.sha256)
  {
    RecordIdIsCanonical(r.recordId);
    if IsHash(r.sha256) {
      forall c | c in r.sha256 ensures '0' <= c <= '9' || 'a' <= c <= 'f' {
        var i :| 0 <= i < |r.sha256| && r.sha256[i] == c;
      }
    }
    if ReceiptFits(x, r) {
      assert forall i :: 0 <= i < |r.sha256| ==> r.sha256[i] in r.sha256;
    }
  }

  /** The receipt's own fields: a positive 64-bit record id in canonical decimals, a room, a timestamp, and 64
      lower-case hexadecimal digits. */
  predicate ReceiptFits(x: Syntax, r: Receipt) {
    && x.isUuid(r.eventId) && r.room != "" && x.isTimestamp(r.processedAt)
    && Decimal.Canonical(r.recordId) && 1 <= Decimal.Value(r.recordId) < 0x1_0000_0000_0000_0000
    && |r.sha256| == 64 && forall c :: c in r.sha256 ==> '0' <= c <= '9' || 'a' <= c <= 'f'
  }

  // ---------------------------------------------------------------- the feed

  datatype Feed = Feed(status: Status, receipt: Option<Receipt>, diagnostic: Option<string>,
                       lastEventId: Option<string>, lastSequence: int)

  const WAITING := "waiting for an authenticated Athanor Host snapshot"

  const PENDING := Feed(Pending, None, Some(WAITING), None, 0)

  datatype Applied = Regressive | Repeated | Changed

  predicate Repeats(f: Feed, s: Snapshot) {
    f.lastEventId == Some(s.eventId) && s.status == f.status && s.receipt == f.receipt && s.diagnostic == f.diagnostic
  }

  function Apply(f: Feed, s: Snapshot): (r: (Applied, Feed)) {
    if s.sequence < f.lastSequence then (Regressive, f)
    else if Repeats(f, s) then (Repeated, f)
    else (Changed, Feed(s.status, s.receipt, s.diagnostic, Some(s.eventId), s.sequence))
  }

  function Refuse(f: Feed, reason: string): Feed {
    f.(status := Refused, receipt := None, diagnostic := Some(reason))
  }

  function Degrade(f: Feed, reason: string): Feed {
    if f.receipt.Some? then f else f.(status := Degraded, diagnostic := Some(reason))
  }

  datatype Event =
    | EvEnvelope(envelope: Envelope, reason: string)
    | EvRefused(reason: string)
    | EvDegraded(reason: string)

  /** `apply_receipt_envelope`: what cannot be parsed, or comes out of order, refuses the feed. */
  function Step(x: Syntax, f: Feed, e: Event): Feed {
    match e
    case EvEnvelope(envelope, reason) =>
      (match Parse(x, envelope)
       case None => Refuse(f, reason)
       case Some(s) => var r := Apply(f, s); if r.0.Regressive? then Refuse(f, reason) else r.1)
    case EvRefused(reason) => Refuse(f, reason)
    case EvDegraded(reason) => Degrade(f, reason)
  }

  function Run(x: Syntax, events: seq<Event>): Feed {
    if events == [] then PENDING else Step(x, Run(x, Front(events)), Last(events))
  }

  /** Delivered exactly with a receipt; a held receipt is the last one applied, in identity and order;
      anything else says why. */
  predicate Inv(f: Feed) {
    && f.status.Delivered? == f.receipt.Some?
    && (f.receipt.Some? ==>
          f.lastEventId == Some(f.receipt.value.eventId) && f.receipt.value.streamSequence == f.lastSequence)
    && f.diagnostic.Some? == f.receipt.None?
    && 0 <= f.lastSequence
  }

  lemma StepKeeps(x: Syntax, f: Feed, e: Event)
    requires Inv(f)
    ensures Inv(Step(x, f, e)) && f.lastSequence <= Step(x, f, e).lastSequence
    ensures e.EvDegraded? && f.receipt.Some? ==> Step(x, f, e) == f
  {
    if e.EvEnvelope? && Parse(x, e.envelope).Some? { ParsedIsCoherent(x, e.envelope); }
  }

  /** What each event leaves on show: a parsed snapshot that is not out of order shows itself, in status,
      receipt, diagnostic and identity, and in order too unless it repeats what is shown; any other envelope,
      like a refusal, shows the reason and no receipt; a degradation shows its reason unless a receipt is held. */
  lemma ShownAfter(x: Syntax, f: Feed, e: Event)
    ensures var t := Step(x, f, e);
            match e
            case EvEnvelope(envelope, reason) =>
              var p := Parse(x, envelope);
              if p.Some? && p.value.sequence >= f.lastSequence
              then
                && t.status == p.value.status && t.receipt == p.value.receipt && t.diagnostic == p.value.diagnostic
                && t.lastEventId == Some(p.value.eventId)
                && (t.lastSequence == p.value.sequence || t == f)
              else
                && t.status.Refused? && t.receipt.None? && t.diagnostic == Some(reason)
                && t.lastEventId == f.lastEventId && t.lastSequence == f.lastSequence
            case EvRefused(reason) =>
              && t.status.Refused? && t.receipt.None? && t.diagnostic == Some(reason)
              && t.lastEventId == f.lastEventId && t.lastSequence == f.lastSequence
            case EvDegraded(reason) =>
              if f.receipt.Some? then t == f
              else
                && t.status.Degraded? && t.receipt.None? && t.diagnostic == Some(reason)
                && t.lastEventId == f.lastEventId && t.lastSequence == f.lastSequence
  {
  }

  /** Over every run of snapshots, refusals and degradations. */
  lemma {:induction false} FeedIsCoherent(x: Syntax, events: seq<Event>)
    ensures Inv(Run(x, events))
  {
    if events != [] {
      FeedIsCoherent(x, Front(events));
      StepKeeps(x, Run(x, Front(events)), Last(events));
    }
  }

  /** The order shown never goes back, from any moment to any later one. */
  lemma {:induction false} OrderNeverRegresses(x: Syntax, events: seq<Event>, n: nat)
    requires n <= |events|
    ensures Run(x, events[..n]).lastSequence <= Run(x, events).lastSequence
    decreases |events|
  {
    if n == |events| {
      assert events[..n] == events;
    } else {
      assert Front(events)[..n] == events[..n];
      OrderNeverRegresses(x, Front(events), n);
      FeedIsCoherent(x, Front(events));
      StepKeeps(x, Run(x, Front(events)), Last(events));
    }
  }

  // ---------------------------------------------------------------- the card

  datatype Card = Evidence(receipt: Receipt) | NoReceipt(phrase: string, diagnostic: Option<string>)

  function CardFields(f: Feed): Card {
    if f.status.Delivered? && f.receipt.Some? then Evidence(f.receipt.value)
    else
      NoReceipt(match f.status
                case Pending => "PENDING"
                case Degraded => "DEGRADED"
                case Refused => "REFUSED"
                case Delivered => "DELIVERED WITHOUT RECEIPT", f.diagnostic)
  }

  /** The card shows evidence exactly when delivered, its last arm is never reached, and without
      evidence it always says why. */
  lemma CardIsHonest(x: Syntax, events: seq<Event>)
    ensures var f := Run(x, events);
            && (CardFields(f).Evidence? <==> f.status.Delivered?)
            && (CardFields(f).NoReceipt? ==>
                  && CardFields(f).phrase != "DELIVERED WITHOUT RECEIPT"
                  && CardFields(f).diagnostic.Some? && CardFields(f).diagnostic == f.diagnostic
                  && (CardFields(f).phrase == "PENDING" <==> f.status.Pending?)
                  && (CardFields(f).phrase == "DEGRADED" <==> f.status.Degraded?)
                  && (CardFields(f).phrase == "REFUSED" <==> f.status.Refused?))
            && (CardFields(f).Evidence? ==> f.receipt == Some(CardFields(f).receipt))
  {
    FeedIsCoherent(x, events);
  }

  /** The feed object, updated in place. */
  class PaperBoatFeed {
    var status: Status
    var receipt: Option<Receipt>
    var diagnostic: Option<string>
    var lastEventId: Option<string>
    var lastSequence: int

    ghost function Value(): Feed
      reads this
    {
      Feed(status, receipt, diagnostic, lastEventId, lastSequence)
    }

    constructor ()
      ensures Value() == PENDING && Inv(Value())
    {
      status, receipt, diagnostic, lastEventId, lastSequence := Pending, None, Some(WAITING), None, 0;
    }

    method ApplySnapshot(s: Snapshot) returns (applied: Applied)
      modifies this
      ensures (applied, Value()) == Apply(old(Value()), s)
      ensures old(Inv(Value())) && Coherent(s) ==> Inv(Value()) && old(lastSequence) <= lastSequence
    {
      if s.sequence < lastSequence {
        return Regressive;
      }
      if lastEventId == Some(s.eventId) && s.status == status && s.receipt == receipt && s.diagnostic == diagnostic {
        return Repeated;
      }
      status, receipt, diagnostic := s.status, s.receipt, s.diagnostic;
      lastEventId, lastSequence := Some(s.eventId), s.sequence;
      return Changed;
    }

    method RefuseFeed(reason: string)
      modifies this
      ensures Value() == Refuse(old(Value()), reason)
      ensures old(Inv(Value())) ==> Inv(Value())
    {
      status, receipt, diagnostic := Refused, None, Some(reason);
    }

    method DegradeFeed(reason: string)
      modifies this
      ensures Value() == Degrade(old(Value()), reason)
      ensures old(Inv(Value())) ==> Inv(Value()) && receipt == old(receipt)
    {
      if receipt.None? {
        status, diagnostic := Degraded, Some(reason);
      }
    }

    method ApplyReceiptEnvelope(x: Syntax, e: Envelope, reason: string)
      requires Inv(Value())
      modifies this
      ensures Value() == Step(x, old(Value()), EvEnvelope(e, reason)) && Inv(Value())
      ensures old(lastSequence) <= lastSequence
    {
      StepKeeps(x, Value(), EvEnvelope(e, reason));
      var parsed := Parse(x, e);
      if parsed.None? {
        RefuseFeed(reason);
        return;
      }
      var applied := ApplySnapshot(parsed.value);
      if applied.Regressive? {
        RefuseFeed(reason);
      }
    }
  }
}
