/** The Recall Policy projection: what the Host writes to the wire, what the client reads off it, and
    the field updates that lead from one state to the next. */
module RecallPolicy {
  import opened Basics

  // ---------------------------------------------------------------- states

  datatype RequestedMode = Auto | Conversation | Work | Quiet

  datatype ResolvedMode = InConversation | AtWork | Mixed | Quieted

  datatype Recovery = Calm | Pending(terms: seq<string>)

  /** One type serves the Host's policy state and the client's projection of it. */
  datatype Policy = Policy(
    requested: RequestedMode,
    resolved: ResolvedMode,
    activeProject: Option<string>,
    resolutionReason: string,
    lastRefreshReason: Option<string>,
    lastRefreshAt: Option<string>,
    workingSetEntries: nat,
    recovery: Recovery,
    degraded: Option<string>,
    updatedAt: Option<string>)

  function RequestedWire(m: RequestedMode): string {
    match m
    case Auto => "auto"
    case Conversation => "conversation"
    case Work => "work"
    case Quiet => "quiet"
  }

  function ResolvedWire(m: ResolvedMode): string {
    match m
    case InConversation => "conversation"
    case AtWork => "work"
    case Mixed => "mixed"
    case Quieted => "quiet"
  }

  function RequestedFromWire(s: string): (m: Option<RequestedMode>)
    ensures m.Some? ==> RequestedWire(m.value) == s
    ensures forall k: RequestedMode :: RequestedWire(k) == s ==> m == Some(k)
  {
    if s == "auto" then Some(Auto)
    else if s == "conversation" then Some(Conversation)
    else if s == "work" then Some(Work)
    else if s == "quiet" then Some(Quiet)
    else None
  }

  function ResolvedFromWire(s: string): (m: Option<ResolvedMode>)
    ensures m.Some? ==> ResolvedWire(m.value) == s
    ensures forall k: ResolvedMode :: ResolvedWire(k) == s ==> m == Some(k)
  {
    if s == "conversation" then Some(InConversation)
    else if s == "work" then Some(AtWork)
    else if s == "mixed" then Some(Mixed)
    else if s == "quiet" then Some(Quieted)
    else None
  }

  // ---------------------------------------------------------------- wire values

  datatype Variant =
    | Nil | Text(text: string) | Whole(number: int) | Fraction | Flag(flag: bool) | List(items: seq<Variant>)

  /** The names of the state's fields, spelled in camel case in a snapshot and in snake case in a
      delta; every other name is `Other`. */
  datatype Key =
    | KRequestedMode | KResolvedMode | KActiveProject | KResolutionReason | KLastRefreshReason | KLastRefreshAt
    | KWorkingSetEntries | KRecoveryPending | KRecoveryTerms | KDegraded | KUpdatedAt | Other(name: string)

  type Dictionary = map<Key, Variant>

  datatype Refusal = MissingField(key: Key) | UnknownField | BadValue(key: Key)

  function OptionalText(v: Variant): Option<string> {
    if v.Text? && v.text != "" then Some(v.text) else None
  }

  function WholeNumber(v: Variant): Option<nat> {
    if v.Whole? && v.number >= 0 then Some(v.number) else None
  }

  function Boolean(v: Variant): Option<bool> {
    if v.Flag? then Some(v.flag) else None
  }

  function TextItems(items: seq<Variant>): Option<seq<string>> {
    if items == [] then Some([])
    else
      var front, last := TextItems(Front(items)), OptionalText(Last(items));
      if front.Some? && last.Some? then Some(front.value + [last.value]) else None
  }

  function TextList(v: Variant): Option<seq<string>> {
    if v.List? then TextItems(v.items) else None
  }

  // ---------------------------------------------------------------- reading a snapshot

  function Field(d: Dictionary, key: Key): Result<Variant, Refusal> {
    if key in d then Ok(d[key]) else Err(MissingField(key))
  }

  function RequiredText(d: Dictionary, key: Key): Result<string, Refusal> {
    var v :- Field(d, key);
    OptionalText(v).ToResult(BadValue(key))
  }

  function NullableText(d: Dictionary, key: Key): Result<Option<string>, Refusal> {
    var v :- Field(d, key);
    Ok(OptionalText(v))
  }

  function ParseRequested(d: Dictionary): Result<RequestedMode, Refusal> {
    var wire :- RequiredText(d, KRequestedMode);
    RequestedFromWire(wire).ToResult(BadValue(KRequestedMode))
  }

  function ParseResolved(d: Dictionary): Result<ResolvedMode, Refusal> {
    var wire :- RequiredText(d, KResolvedMode);
    ResolvedFromWire(wire).ToResult(BadValue(KResolvedMode))
  }

  function ParseEntries(d: Dictionary): Result<nat, Refusal> {
    var v :- Field(d, KWorkingSetEntries);
    WholeNumber(v).ToResult(BadValue(KWorkingSetEntries))
  }

  function ParseRecovery(d: Dictionary): Result<Recovery, Refusal> {
    var flag :- Field(d, KRecoveryPending);
    var pending :- Boolean(flag).ToResult(BadValue(KRecoveryPending));
    var list :- Field(d, KRecoveryTerms);
    var terms :- TextList(list).ToResult(BadValue(KRecoveryTerms));
    Ok(if pending then Pending(terms) else Calm)
  }

  function Parse(d: Dictionary): Result<Policy, Refusal> {
    if exists key | key in d :: key.Other? then Err(UnknownField)
    else
      var requested :- ParseRequested(d);
      var resolved :- ParseResolved(d);
      var entries :- ParseEntries(d);
      var recovery :- ParseRecovery(d);
      var activeProject :- NullableText(d, KActiveProject);
      var resolutionReason :- RequiredText(d, KResolutionReason);
      var lastRefreshReason :- NullableText(d, KLastRefreshReason);
      var lastRefreshAt :- NullableText(d, KLastRefreshAt);
      var degraded :- NullableText(d, KDegraded);
      var updatedAt :- NullableText(d, KUpdatedAt);
      Ok(Policy(requested, resolved, activeProject, resolutionReason, lastRefreshReason, lastRefreshAt, entries,
                recovery, degraded, updatedAt))
  }

  // ---------------------------------------------------------------- writing a snapshot

  function OfOption(o: Option<string>): Variant {
    if o.Some? then Text(o.value) else Nil
  }

  function OfTerms(terms: seq<string>): seq<Variant> {
    if terms == [] then [] else OfTerms(Front(terms)) + [Text(Last(terms))]
  }

  function Terms(r: Recovery): seq<string> {
    if r.Pending? then r.terms else []
  }

  /** The state as the Host serialises it. */
  function Print(p: Policy): Dictionary {
    map[KRequestedMode := Text(RequestedWire(p.requested)),
        KResolvedMode := Text(ResolvedWire(p.resolved)),
        KActiveProject := OfOption(p.activeProject),
        KResolutionReason := Text(p.resolutionReason),
        KLastRefreshReason := OfOption(p.lastRefreshReason),
        KLastRefreshAt := OfOption(p.lastRefreshAt),
        KWorkingSetEntries := Whole(p.workingSetEntries),
        KRecoveryPending := Flag(p.recovery.Pending?),
        KRecoveryTerms := List(OfTerms(Terms(p.recovery))),
        KDegraded := OfOption(p.degraded),
        KUpdatedAt := OfOption(p.updatedAt)]
  }

  /** Empty text reads as absent text. */
  function Filled(o: Option<string>): Option<string> {
    if o == Some("") then None else o
  }

  predicate Readable(p: Policy) {
    p.resolutionReason != "" && "" !in Terms(p.recovery)
  }

  /** What a client sees of a readable state. */
  function View(p: Policy): Policy {
    p.(activeProject := Filled(p.activeProject), lastRefreshReason := Filled(p.lastRefreshReason),
       lastRefreshAt := Filled(p.lastRefreshAt), degraded := Filled(p.degraded), updatedAt := Filled(p.updatedAt))
  }

  predicate Clean(p: Policy) {
    && Readable(p)
    && p.activeProject != Some("") && p.lastRefreshReason != Some("") && p.lastRefreshAt != Some("")
    && p.degraded != Some("") && p.updatedAt != Some("")
  }

  lemma {:induction false} TermsRoundTrip(terms: seq<string>)
    ensures TextItems(OfTerms(terms)) == if "" in terms then None else Some(terms)
  {
    if terms != [] {
      TermsRoundTrip(Front(terms));
      assert terms == Front(terms) + [Last(terms)];
      assert "" in terms <==> "" in Front(terms) || Last(terms) == "";
      Snoc(OfTerms(Front(terms)), Text(Last(terms)));
    }
  }

  lemma RecoveryRoundTrip(p: Policy)
    ensures "" in Terms(p.recovery) ==> ParseRecovery(Print(p)).Err?
    ensures "" !in Terms(p.recovery) ==> ParseRecovery(Print(p)) == Ok(p.recovery)
  {
    TermsRoundTrip(Terms(p.recovery));
  }

  lemma ModesRoundTrip(p: Policy)
    ensures ParseRequested(Print(p)) == Ok(p.requested)
    ensures ParseResolved(Print(p)) == Ok(p.resolved)
    ensures ParseEntries(Print(p)) == Ok(p.workingSetEntries)
  {
  }

  lemma TextsRoundTrip(p: Policy)
    ensures NullableText(Print(p), KActiveProject) == Ok(Filled(p.activeProject))
    ensures NullableText(Print(p), KLastRefreshReason) == Ok(Filled(p.lastRefreshReason))
    ensures NullableText(Print(p), KLastRefreshAt) == Ok(Filled(p.lastRefreshAt))
    ensures NullableText(Print(p), KDegraded) == Ok(Filled(p.degraded))
    ensures NullableText(Print(p), KUpdatedAt) == Ok(Filled(p.updatedAt))
    ensures RequiredText(Print(p), KResolutionReason)
         == if p.resolutionReason == "" then Err(BadValue(KResolutionReason)) else Ok(p.resolutionReason)
  {
  }

  /** Reading back what the Host wrote: refused exactly when a text the client requires is empty, and
      otherwise the state with empty texts read as absent. */
  lemma SnapshotRoundTrip(p: Policy)
    ensures if Readable(p) then Parse(Print(p)) == Ok(View(p)) else Parse(Print(p)).Err?
  {
    RecoveryRoundTrip(p);
    ModesRoundTrip(p);
    TextsRoundTrip(p);
    NamesAreKnown(p);
  }

  lemma NamesAreKnown(p: Policy)
    ensures forall key | key in Print(p) :: !key.Other?
  {
  }

  /** The snapshot is the Host's own state if and only if that state holds no empty text. */
  lemma SnapshotIsExact(p: Policy)
    ensures Parse(Print(p)) == Ok(p) <==> Clean(p)
  {
    SnapshotRoundTrip(p);
  }

  // ---------------------------------------------------------------- field updates

  datatype Update = Update(key: Key, value: Variant)

  function ApplyUpdate(p: Policy, u: Update): Result<Policy, Refusal> {
    match u.key
    case KRequestedMode =>
      var wire :- OptionalText(u.value).ToResult(BadValue(u.key));
      var mode :- RequestedFromWire(wire).ToResult(BadValue(u.key));
      Ok(p.(requested := mode))
    case KResolvedMode =>
      var wire :- OptionalText(u.value).ToResult(BadValue(u.key));
      var mode :- ResolvedFromWire(wire).ToResult(BadValue(u.key));
      Ok(p.(resolved := mode))
    case KActiveProject => Ok(p.(activeProject := OptionalText(u.value)))
    case KResolutionReason =>
      var reason :- OptionalText(u.value).ToResult(BadValue(u.key));
      Ok(p.(resolutionReason := reason))
    case KLastRefreshReason => Ok(p.(lastRefreshReason := OptionalText(u.value)))
    case KLastRefreshAt => Ok(p.(lastRefreshAt := OptionalText(u.value)))
    case KWorkingSetEntries =>
      var entries :- WholeNumber(u.value).ToResult(BadValue(u.key));
      Ok(p.(workingSetEntries := entries))
    case KRecoveryPending =>
      var pending :- Boolean(u.value).ToResult(BadValue(u.key));
      Ok(p.(recovery := if pending then Pending(Terms(p.recovery)) else Calm))
    case KRecoveryTerms =>
      var terms :- TextList(u.value).ToResult(BadValue(u.key));
      Ok(if p.recovery.Pending? then p.(recovery := Pending(terms)) else p)
    case KDegraded => Ok(p.(degraded := OptionalText(u.value)))
    case KUpdatedAt => Ok(p.(updatedAt := OptionalText(u.value)))
    case Other(_) => Err(UnknownField)
  }

  function ApplyAll(p: Policy, updates: seq<Update>): Result<Policy, Refusal> {
    if updates == [] then Ok(p)
    else
      var q :- ApplyAll(p, Front(updates));
      ApplyUpdate(q, Last(updates))
  }

  function Unless<T(==)>(before: T, after: T, key: Key, value: Variant): seq<Update> {
    if before == after then [] else [Update(key, value)]
  }

  /** What the Host publishes about the k-th field, in its order: an update if the field changed. */
  function Change(p: Policy, q: Policy, k: nat): seq<Update> {
    match k
    case 0 => Unless(p.requested, q.requested, KRequestedMode, Text(RequestedWire(q.requested)))
    case 1 => Unless(p.resolved, q.resolved, KResolvedMode, Text(ResolvedWire(q.resolved)))
    case 2 => Unless(p.activeProject, q.activeProject, KActiveProject, OfOption(q.activeProject))
    case 3 => Unless(p.resolutionReason, q.resolutionReason, KResolutionReason, Text(q.resolutionReason))
    case 4 => Unless(p.lastRefreshReason, q.lastRefreshReason, KLastRefreshReason, OfOption(q.lastRefreshReason))
    case 5 => Unless(p.lastRefreshAt, q.lastRefreshAt, KLastRefreshAt, OfOption(q.lastRefreshAt))
    case 6 => Unless(p.workingSetEntries, q.workingSetEntries, KWorkingSetEntries, Whole(q.workingSetEntries))
    case 7 => Unless(p.recovery.Pending?, q.recovery.Pending?, KRecoveryPending, Flag(q.recovery.Pending?))
    case 8 => Unless(Terms(p.recovery), Terms(q.recovery), KRecoveryTerms, List(OfTerms(Terms(q.recovery))))
    case 9 => Unless(p.degraded, q.degraded, KDegraded, OfOption(q.degraded))
    case 10 => Unless(p.updatedAt, q.updatedAt, KUpdatedAt, OfOption(q.updatedAt))
    case _ => []
  }

  function Changes(p: Policy, q: Policy, n: nat): seq<Update> {
    if n == 0 then [] else Changes(p, q, n - 1) + Change(p, q, n - 1)
  }

  /** The updates the Host publishes between two states. */
  function Between(p: Policy, q: Policy): seq<Update> {
    Changes(p, q, 11)
  }

  // ---------------------------------------------------------------- a delta shows what a snapshot shows

  /** The first n fields as `q` shows them, the others as `p` does.  The recovery terms follow the
      pending flag, one field later. */
  function Stage(p: Policy, q: Policy, n: nat): Policy {
    var v, w := View(p), View(q);
    Policy(if n > 0 then w.requested else v.requested,
           if n > 1 then w.resolved else v.resolved,
           if n > 2 then w.activeProject else v.activeProject,
           if n > 3 then w.resolutionReason else v.resolutionReason,
           if n > 4 then w.lastRefreshReason else v.lastRefreshReason,
           if n > 5 then w.lastRefreshAt else v.lastRefreshAt,
           if n > 6 then w.workingSetEntries else v.workingSetEntries,
           if n > 8 then w.recovery
           else if n == 8 then (if w.recovery.Pending? then Pending(Terms(v.recovery)) else Calm)
           else v.recovery,
           if n > 9 then w.degraded else v.degraded,
           if n > 10 then w.updatedAt else v.updatedAt)
  }

  predicate Reaches(q: Policy, n: nat) {
    (n > 3 ==> q.resolutionReason != "") && (n > 8 ==> "" !in Terms(q.recovery))
  }

  lemma ApplyChange(p: Policy, updates: seq<Update>, change: seq<Update>)
    requires |change| <= 1
    ensures ApplyAll(p, updates + change)
         == if change == [] || ApplyAll(p, updates).Err? then ApplyAll(p, updates)
            else ApplyUpdate(ApplyAll(p, updates).value, change[0])
  {
    if change == [] {
      assert updates + change == updates;
    } else {
      Snoc(updates, change[0]);
      assert updates + change == updates + [change[0]];
    }
  }

  ghost predicate Steps(p: Policy, q: Policy, n: nat) {
    var change := Change(p, q, n);
    && |change| <= 1
    && (change == [] ==> Stage(p, q, n) == Stage(p, q, n + 1) && Reaches(q, n + 1))
    && (change != [] ==> var r := ApplyUpdate(Stage(p, q, n), change[0]);
                         if Reaches(q, n + 1) then r == Ok(Stage(p, q, n + 1)) else r.Err?)
  }

  lemma EarlyStep(p: Policy, q: Policy, n: nat)
    requires Readable(p) && n < 6 && Reaches(q, n)
    ensures Steps(p, q, n)
  {
    match n
    case 0 =>
    case 1 =>
    case 2 =>
    case 3 =>
    case _ =>
  }

  lemma LateStep(p: Policy, q: Policy, n: nat)
    requires Readable(p) && 6 <= n < 11 && Reaches(q, n)
    ensures Steps(p, q, n)
  {
    match n
    case 7 =>
    case 8 => TermsRoundTrip(Terms(q.recovery));
    case _ =>
  }

  /** The n-th field alone, on a projection that has come this far. */
  lemma StageStep(p: Policy, q: Policy, n: nat)
    requires Readable(p) && n < 11 && Reaches(q, n)
    ensures Steps(p, q, n)
  {
    if n < 6 { EarlyStep(p, q, n); } else { LateStep(p, q, n); }
  }

  lemma {:induction false} StageReached(p: Policy, q: Policy, n: nat)
    requires Readable(p) && n <= 11
    ensures var r := ApplyAll(View(p), Changes(p, q, n));
            if Reaches(q, n) then r == Ok(Stage(p, q, n)) else r.Err?
  {
    if n > 0 {
      StageReached(p, q, n - 1);
      if Reaches(q, n - 1) { StageStep(p, q, n - 1); }
      ChangeSize(p, q, n - 1);
      ApplyChange(View(p), Changes(p, q, n - 1), Change(p, q, n - 1));
    }
  }

  lemma ChangeSize(p: Policy, q: Policy, k: nat)
    ensures |Change(p, q, k)| <= 1
  {
  }

  /** From the view of one state, the published updates lead to the view of the next, and are refused
      exactly when the next state's own snapshot would be. */
  lemma DeltaIsSnapshot(p: Policy, q: Policy)
    requires Readable(p)
    ensures var r := ApplyAll(View(p), Between(p, q));
            if Readable(q) then r == Ok(View(q)) else r.Err?
  {
    StageReached(p, q, 11);
  }
}
