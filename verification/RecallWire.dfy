/** Which dictionaries a client reads a state off, and what each field update makes of one: for everything that
    may come over the wire, written by this Host or not. */
module RecallWire {
  import opened Basics
  import opened RecallPolicy

  /** The field holds this text, which is not empty. */
  predicate Says(d: Dictionary, key: Key, text: string) {
    key in d && d[key] == Text(text) && text != ""
  }

  /** The field is there; a text that is not empty is read, and anything else as no text. */
  predicate MaySay(d: Dictionary, key: Key, text: Option<string>) {
    key in d && Reads(d[key], text)
  }

  predicate Reads(v: Variant, text: Option<string>) {
    if v.Text? && v.text != "" then text == Some(v.text) else text.None?
  }

  predicate RequestedIs(wire: string, m: RequestedMode) {
    || (wire == "auto" && m.Auto?) || (wire == "conversation" && m.Conversation?)
    || (wire == "work" && m.Work?) || (wire == "quiet" && m.Quiet?)
  }

  predicate ResolvedIs(wire: string, m: ResolvedMode) {
    || (wire == "conversation" && m.InConversation?) || (wire == "work" && m.AtWork?)
    || (wire == "mixed" && m.Mixed?) || (wire == "quiet" && m.Quieted?)
  }

  /** A list of texts, none empty. */
  predicate Lists(v: Variant, terms: seq<string>) {
    v.List? && |v.items| == |terms| && forall k :: 0 <= k < |terms| ==> v.items[k] == Text(terms[k]) && terms[k] != ""
  }

  ghost predicate ModesRead(d: Dictionary, p: Policy) {
    && (exists wire :: Says(d, KRequestedMode, wire) && RequestedIs(wire, p.requested))
    && (exists wire :: Says(d, KResolvedMode, wire) && ResolvedIs(wire, p.resolved))
  }

  /** The terms must be readable even when nothing is pending. */
  ghost predicate RecoveryRead(d: Dictionary, r: Recovery) {
    && KRecoveryPending in d && d[KRecoveryPending].Flag? && KRecoveryTerms in d
    && (r.Pending? <==> d[KRecoveryPending].flag)
    && exists terms :: Lists(d[KRecoveryTerms], terms) && (r.Pending? ==> r.terms == terms)
  }

  predicate TextsRead(d: Dictionary, p: Policy) {
    && MaySay(d, KActiveProject, p.activeProject) && MaySay(d, KLastRefreshReason, p.lastRefreshReason)
    && MaySay(d, KLastRefreshAt, p.lastRefreshAt) && MaySay(d, KDegraded, p.degraded)
    && MaySay(d, KUpdatedAt, p.updatedAt) && Says(d, KResolutionReason, p.resolutionReason)
  }

  /** Every field is there under a known name, and holds what the state says. */
  ghost predicate StateRead(d: Dictionary, p: Policy) {
    && (forall key | key in d :: !key.Other?)
    && ModesRead(d, p) && RecoveryRead(d, p.recovery) && TextsRead(d, p)
    && KWorkingSetEntries in d && d[KWorkingSetEntries] == Whole(p.workingSetEntries)
  }

  // ---------------------------------------------------------------- the readers

  lemma RequestedReads(wire: string, m: RequestedMode)
    ensures RequestedFromWire(wire) == Some(m) <==> RequestedIs(wire, m)
  {
  }

  lemma ResolvedReads(wire: string, m: ResolvedMode)
    ensures ResolvedFromWire(wire) == Some(m) <==> ResolvedIs(wire, m)
  {
  }

  lemma {:induction false} ItemsRead(items: seq<Variant>, terms: seq<string>)
    ensures TextItems(items) == Some(terms) <==> Lists(List(items), terms)
  {
    if items != [] {
      if terms == [] {
      } else {
        ItemsRead(Front(items), Front(terms));
        assert items == Front(items) + [Last(items)] && terms == Front(terms) + [Last(terms)];
      }
    }
  }

  lemma ListReads(v: Variant, terms: seq<string>)
    ensures TextList(v) == Some(terms) <==> Lists(v, terms)
  {
    if v.List? { ItemsRead(v.items, terms); }
  }

  lemma ModesReads(d: Dictionary, p: Policy)
    ensures ParseRequested(d) == Ok(p.requested) && ParseResolved(d) == Ok(p.resolved) <==> ModesRead(d, p)
  {
    if KRequestedMode in d && d[KRequestedMode].Text? { RequestedReads(d[KRequestedMode].text, p.requested); }
    if KResolvedMode in d && d[KResolvedMode].Text? { ResolvedReads(d[KResolvedMode].text, p.resolved); }
  }

  lemma RecoveryReads(d: Dictionary, r: Recovery)
    ensures ParseRecovery(d) == Ok(r) <==> RecoveryRead(d, r)
  {
    if KRecoveryTerms in d {
      var terms := TextList(d[KRecoveryTerms]);
      if terms.Some? { ListReads(d[KRecoveryTerms], terms.value); }
      forall own | Lists(d[KRecoveryTerms], own) ensures terms == Some(own) { ListReads(d[KRecoveryTerms], own); }
    }
  }

  lemma TextsReads(d: Dictionary, p: Policy)
    ensures (&& NullableText(d, KActiveProject) == Ok(p.activeProject)
             && NullableText(d, KLastRefreshReason) == Ok(p.lastRefreshReason)
             && NullableText(d, KLastRefreshAt) == Ok(p.lastRefreshAt) && NullableText(d, KDegraded) == Ok(p.degraded)
             && NullableText(d, KUpdatedAt) == Ok(p.updatedAt)
             && RequiredText(d, KResolutionReason) == Ok(p.resolutionReason))
            <==> TextsRead(d, p)
  {
  }

  lemma ParseParts(d: Dictionary, p: Policy)
    ensures Parse(d) == Ok(p)
            <==> && (forall key | key in d :: !key.Other?)
                 && ParseRequested(d) == Ok(p.requested) && ParseResolved(d) == Ok(p.resolved)
                 && ParseEntries(d) == Ok(p.workingSetEntries) && ParseRecovery(d) == Ok(p.recovery)
                 && NullableText(d, KActiveProject) == Ok(p.activeProject)
                 && NullableText(d, KLastRefreshReason) == Ok(p.lastRefreshReason)
                 && NullableText(d, KLastRefreshAt) == Ok(p.lastRefreshAt)
                 && NullableText(d, KDegraded) == Ok(p.degraded) && NullableText(d, KUpdatedAt) == Ok(p.updatedAt)
                 && RequiredText(d, KResolutionReason) == Ok(p.resolutionReason)
  {
  }

  lemma EntriesRead(d: Dictionary, entries: nat)
    ensures ParseEntries(d) == Ok(entries)
            <==> KWorkingSetEntries in d && d[KWorkingSetEntries] == Whole(entries)
  {
  }

  /** A dictionary is read as a state exactly when every field is there, none has an unknown name, and each
      holds what that state says: empty and other texts than required refused, absent ones read as none. */
  lemma ParseIff(d: Dictionary, p: Policy)
    ensures Parse(d) == Ok(p) <==> StateRead(d, p)
  {
    ParseParts(d, p);
    ModesReads(d, p);
    EntriesRead(d, p.workingSetEntries);
    RecoveryReads(d, p.recovery);
    TextsReads(d, p);
  }

  // ---------------------------------------------------------------- updates

  /** What an update makes of a state: its own field says what it says, and the others stay.  Terms without
      anything pending are read and forgotten. */
  ghost predicate Updates(p: Policy, u: Update, q: Policy) {
    match u.key
    case KRequestedMode =>
      u.value.Text? && RequestedIs(u.value.text, q.requested) && q == p.(requested := q.requested)
    case KResolvedMode => u.value.Text? && ResolvedIs(u.value.text, q.resolved) && q == p.(resolved := q.resolved)
    case KActiveProject => Reads(u.value, q.activeProject) && q == p.(activeProject := q.activeProject)
    case KResolutionReason =>
      u.value == Text(q.resolutionReason) && q.resolutionReason != "" && q == p.(resolutionReason := q.resolutionReason)
    case KLastRefreshReason => Reads(u.value, q.lastRefreshReason) && q == p.(lastRefreshReason := q.lastRefreshReason)
    case KLastRefreshAt => Reads(u.value, q.lastRefreshAt) && q == p.(lastRefreshAt := q.lastRefreshAt)
    case KWorkingSetEntries =>
      u.value == Whole(q.workingSetEntries) && q == p.(workingSetEntries := q.workingSetEntries)
    case KRecoveryPending =>
      && u.value.Flag? && q == p.(recovery := q.recovery) && (q.recovery.Pending? <==> u.value.flag)
      && (q.recovery.Pending? ==> q.recovery.terms == if p.recovery.Pending? then p.recovery.terms else [])
    case KRecoveryTerms =>
      exists terms :: Lists(u.value, terms) && q == if p.recovery.Pending? then p.(recovery := Pending(terms)) else p
    case KDegraded => Reads(u.value, q.degraded) && q == p.(degraded := q.degraded)
    case KUpdatedAt => Reads(u.value, q.updatedAt) && q == p.(updatedAt := q.updatedAt)
    case Other(_) => false
  }

  lemma TermsUpdate(p: Policy, u: Update, q: Policy)
    requires u.key.KRecoveryTerms?
    ensures ApplyUpdate(p, u) == Ok(q) <==> Updates(p, u, q)
  {
    var terms := TextList(u.value);
    if terms.Some? { ListReads(u.value, terms.value); }
    forall own | Lists(u.value, own) ensures terms == Some(own) { ListReads(u.value, own); }
  }

  /** An update is taken exactly when it leads there. */
  lemma UpdateIff(p: Policy, u: Update, q: Policy)
    ensures ApplyUpdate(p, u) == Ok(q) <==> Updates(p, u, q)
  {
    if u.key.KRecoveryTerms? {
      TermsUpdate(p, u, q);
    } else if u.key.KRequestedMode? && u.value.Text? {
      RequestedReads(u.value.text, q.requested);
    } else if u.key.KResolvedMode? && u.value.Text? {
      ResolvedReads(u.value.text, q.resolved);
    }
  }

  /** States in a row, each update leading from one to the next. */
  ghost predicate Leads(states: seq<Policy>, updates: seq<Update>) {
    |states| == |updates| + 1 && forall k :: 0 <= k < |updates| ==> Updates(states[k], updates[k], states[k + 1])
  }

  ghost predicate LeadsTo(p: Policy, updates: seq<Update>, q: Policy) {
    exists states :: Leads(states, updates) && states[0] == p && states[|updates|] == q
  }

  lemma LeadsOn(p: Policy, f: seq<Update>, q: Policy, u: Update, r: Policy)
    requires LeadsTo(p, f, q) && Updates(q, u, r)
    ensures LeadsTo(p, f + [u], r)
  {
    var states :| Leads(states, f) && states[0] == p && states[|f|] == q;
    assert Leads(states + [r], f + [u]);
  }

  lemma LedFrom(p: Policy, f: seq<Update>, u: Update, r: Policy) returns (q: Policy)
    requires LeadsTo(p, f + [u], r)
    ensures LeadsTo(p, f, q) && Updates(q, u, r)
  {
    var states :| Leads(states, f + [u]) && states[0] == p && states[|f + [u]|] == r;
    q := states[|f|];
    assert (f + [u])[|f|] == u;
    assert forall k :: 0 <= k < |f| ==> (f + [u])[k] == f[k];
    assert Leads(states[..|f| + 1], f);
  }

  /** The updates of a delta are taken all together exactly when each one, in order, leads on from where the one
      before led. */
  lemma {:induction false} UpdatesIff(p: Policy, updates: seq<Update>, q: Policy)
    ensures ApplyAll(p, updates) == Ok(q) <==> LeadsTo(p, updates, q)
  {
    if updates == [] {
      assert Leads([p], updates);
    } else {
      var f, u := Front(updates), Last(updates);
      assert updates == f + [u];
      if ApplyAll(p, updates) == Ok(q) {
        var before := ApplyAll(p, f).value;
        UpdatesIff(p, f, before);
        UpdateIff(before, u, q);
        LeadsOn(p, f, before, u, q);
      }
      if LeadsTo(p, updates, q) {
        var before := LedFrom(p, f, u, q);
        UpdatesIff(p, f, before);
        UpdateIff(before, u, q);
      }
    }
  }
}
