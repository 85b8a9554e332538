/** The keyset walk of a sediment column: pages are asked for by the oldest row held, so rows written
    meanwhile shift nothing.  A round is two events, the question and its answer. */
module Sediment {
  import opened Basics

  const PAGE_LIMIT := 25
  const MAX_SAFE_INTEGER := 9_007_199_254_740_991

  /** A row as the column reads it: its stamp, if it carries one, and its id. */
  datatype Row = Row(stamp: Option<int>, id: int, body: string)

  datatype Key = Key(stamp: int, id: int)

  function KeysetCursor(row: Row): Option<Key> {
    if row.stamp.Some? && 1 <= row.id <= MAX_SAFE_INTEGER then Some(Key(row.stamp.value, row.id)) else None
  }

  datatype Answer = Refused | NoArray | Page

  /** `asked` is the open question: whether it appends, and the cursor it carries. */
  datatype Question = Question(append: bool, before: Option<Key>)

  datatype Column = Column(rows: seq<Row>, cursor: Option<Key>, exhausted: bool, refusal: bool, asked: Option<Question>)

  const OPENED := Column([], None, false, false, None)

  // ---------------------------------------------------------------- the Host

  predicate Older(row: Row, key: Key) {
    row.stamp.Some? && (row.stamp.value < key.stamp || (row.stamp.value == key.stamp && row.id < key.id))
  }

  function Below(table: seq<Row>, key: Key): seq<Row> {
    if table == [] then []
    else if Older(table[0], key) then [table[0]] + Below(table[1..], key)
    else Below(table[1..], key)
  }

  /** Up to a page of rows strictly below the cursor, in the table's order. */
  function HostPage(table: seq<Row>, before: Option<Key>): seq<Row> {
    var rows := if before.Some? then Below(table, before.value) else table;
    if |rows| > PAGE_LIMIT then rows[..PAGE_LIMIT] else rows
  }

  // ---------------------------------------------------------------- the column

  function Ask(c: Column, append: bool): Column {
    if c.asked.Some? then c
    else c.(asked := Some(Question(append, if append then c.cursor else None)))
  }

  function Answered(c: Column, answer: Answer, page: seq<Row>): Column {
    if c.asked.None? then c
    else
      var append := c.asked.value.append;
      match answer
      case Refused => c.(asked := None, refusal := true)
      case NoArray => c.(asked := None, refusal := true)
      case Page =>
        var rows := if append then c.rows + page else page;
        Column(rows, if rows == [] then None else KeysetCursor(Last(rows)), |page| < PAGE_LIMIT, false, None)
  }

  /** The cursor is that of the last row held, and an open question carries it exactly when it appends. */
  predicate Kept(c: Column) {
    && c.cursor == (if c.rows == [] then None else KeysetCursor(Last(c.rows)))
    && (c.asked.Some? ==> c.asked.value.before == if c.asked.value.append then c.cursor else None)
  }

  // ---------------------------------------------------------------- histories

  /** `loaded` is the table as it was when the walk that is under way began. */
  datatype State = State(column: Column, table: seq<Row>, loaded: seq<Row>)

  datatype Event = EvAsk(append: bool) | EvAnswer(answer: Answer) | EvWritten(newer: seq<Row>)

  function Step(s: State, e: Event): State {
    match e
    case EvAsk(append) => s.(column := Ask(s.column, append))
    case EvWritten(newer) => s.(table := newer + s.table)
    case EvAnswer(answer) =>
      var asked := s.column.asked;
      if asked.None? then s
      else
        var page := HostPage(s.table, asked.value.before);
        var starts := answer.Page? && asked.value.before.None?;
        s.(column := Answered(s.column, answer, page), loaded := if starts then s.table else s.loaded)
  }

  function Run(table: seq<Row>, events: seq<Event>): State {
    if events == [] then State(OPENED, table, []) else Step(Run(table, Front(events)), Last(events))
  }

  // ---------------------------------------------------------------- the theorem

  /** The Host's order: it agrees with what the Host takes to be below a row, for every row that can be a
      cursor, and no row stands twice. */
  ghost predicate Ordered(table: seq<Row>) {
    && NoDuplicates(table)
    && (forall j, k :: 0 <= j < k < |table| && KeysetCursor(table[j]).Some? ==>
          Older(table[k], KeysetCursor(table[j]).value))
    && (forall j, k :: 0 <= j < k < |table| && KeysetCursor(table[k]).Some? ==>
          !Older(table[j], KeysetCursor(table[k]).value))
  }

  lemma {:induction false} BelowAll(table: seq<Row>, key: Key)
    requires forall k :: 0 <= k < |table| ==> Older(table[k], key)
    ensures Below(table, key) == table
  {
    if table != [] {
      assert forall k :: 0 <= k < |table[1..]| ==> table[1..][k] == table[k + 1];
      BelowAll(table[1..], key);
    }
  }

  lemma OrderedTail(table: seq<Row>)
    requires Ordered(table) && table != []
    ensures Ordered(table[1..])
  {
    assert forall k :: 0 <= k < |table[1..]| ==> table[1..][k] == table[k + 1];
  }

  /** What lies strictly below a row that can be a cursor is exactly what follows it. */
  lemma {:induction false} BelowIsSuffix(table: seq<Row>, n: nat)
    requires Ordered(table) && 0 < n <= |table| && KeysetCursor(table[n - 1]).Some?
    ensures Below(table, KeysetCursor(table[n - 1]).value) == table[n..]
  {
    var key := KeysetCursor(table[n - 1]).value;
    assert forall k :: 0 <= k < |table[1..]| ==> table[1..][k] == table[k + 1];
    assert !Older(table[0], key);
    if n == 1 {
      BelowAll(table[1..], key);
    } else {
      OrderedTail(table);
      BelowIsSuffix(table[1..], n - 1);
      assert table[1..][n - 1..] == table[n..];
    }
  }

  /** The rows held are the top of the table as it was when the walk began, with nothing skipped and
      nothing twice; exhausted, they are all of it. */
  ghost predicate Inv(s: State) {
    Ordered(s.table) && InWalk(s)
  }

  ghost predicate InWalk(s: State) {
    var c := s.column;
    && |s.loaded| <= |s.table| && s.table[|s.table| - |s.loaded|..] == s.loaded
    && c.rows <= s.loaded
    && (c.exhausted ==> c.rows == s.loaded)
    && Kept(c)
  }

  /** A page is appended to rows already held although no cursor was asked below. */
  predicate Restarts(s: State, e: Event) {
    var asked := s.column.asked;
    && e.EvAnswer? && e.answer.Page? && asked.Some? && asked.value.append && asked.value.before.None?
    && s.column.rows != [] && s.table != []
  }

  lemma FirstPage(s: State)
    requires Inv(s) && s.column.asked.Some? && s.column.asked.value.before.None?
    requires !Restarts(s, EvAnswer(Page))
    ensures Inv(Step(s, EvAnswer(Page)))
  {
    var page := HostPage(s.table, None);
    assert s.table[0..] == s.table;
    assert page <= s.table;
    if s.column.asked.value.append {
      assert s.column.rows == [];
      assert [] + page == page;
    }
  }

  /** Appended without a cursor, the page is not the next one: the rows are no top of the table. */
  lemma RestartBreaks(s: State)
    requires Inv(s) && Restarts(s, EvAnswer(Page))
    ensures var t := Step(s, EvAnswer(Page)); !(t.column.rows <= t.loaded)
  {
    var page, rows, skipped := HostPage(s.table, None), s.column.rows, |s.table| - |s.loaded|;
    var t := Step(s, EvAnswer(Page));
    assert t.column.rows == rows + page && t.loaded == s.table;
    assert rows[0] == s.loaded[0] == s.table[skipped];
    assert page[0] == s.table[0];
    NoPrefix(rows + page, s.table, skipped, |rows|);
  }

  lemma NoPrefix(rows: seq<Row>, table: seq<Row>, m: nat, n: nat)
    requires NoDuplicates(table) && m < |table| && 0 < n < |rows| && rows[0] == table[m] && rows[n] == table[0]
    ensures !(rows <= table)
  {
  }

  lemma NextPage(s: State)
    requires InWalk(s) && s.column.asked.Some? && s.column.asked.value.append && s.column.asked.value.before.Some?
    requires Below(s.table, s.column.cursor.value) == s.loaded[|s.column.rows|..]
    ensures InWalk(Step(s, EvAnswer(Page)))
  {
    var c := s.column;
    var page := HostPage(s.table, c.asked.value.before);
    PrefixGrows(c.rows, page, s.loaded);
    AppendedPage(c, page);
    assert Step(s, EvAnswer(Page)) == s.(column := Answered(c, Page, page));
    assert |page| < PAGE_LIMIT ==> page == s.loaded[|c.rows|..];
  }

  lemma AppendedPage(c: Column, page: seq<Row>)
    requires Kept(c) && c.asked.Some? && c.asked.value.append
    ensures var t := Answered(c, Page, page);
            Kept(t) && t.rows == c.rows + page && t.asked.None? && (t.exhausted <==> |page| < PAGE_LIMIT)
  {
  }

  /** Below the cursor stands exactly what the walk has not reached yet. */
  lemma NextRows(s: State)
    requires Inv(s) && s.column.asked.Some? && s.column.asked.value.before.Some?
    ensures Below(s.table, s.column.cursor.value) == s.loaded[|s.column.rows|..]
  {
    var rows, skipped := s.column.rows, |s.table| - |s.loaded|;
    var n := skipped + |rows|;
    assert s.table[n - 1] == s.loaded[|rows| - 1] == Last(rows);
    BelowIsSuffix(s.table, n);
    assert s.table[n..] == s.loaded[|rows|..];
  }

  lemma PrefixGrows(rows: seq<Row>, page: seq<Row>, loaded: seq<Row>)
    requires rows <= loaded && page <= loaded[|rows|..]
    ensures rows + page <= loaded
    ensures |page| == |loaded[|rows|..]| ==> rows + page == loaded
  {
    assert rows + loaded[|rows|..] == loaded;
  }

  /** Rows are written only at the top. */
  ghost predicate Newer(s: State, e: Event) {
    e.EvWritten? ==> Ordered(e.newer + s.table)
  }

  lemma StepKeeps(s: State, e: Event)
    requires Inv(s) && Newer(s, e) && !Restarts(s, e)
    ensures Inv(Step(s, e))
  {
    match e
    case EvAsk(_) =>
    case EvWritten(newer) =>
      assert (newer + s.table)[|newer| + |s.table| - |s.loaded|..] == s.table[|s.table| - |s.loaded|..];
    case EvAnswer(answer) =>
      if s.column.asked.Some? && answer.Page? {
        if s.column.asked.value.before.None? {
          FirstPage(s);
        } else {
          NextRows(s);
          NextPage(s);
        }
      }
  }

  ghost predicate OnlyNewer(table: seq<Row>, events: seq<Event>) {
    forall k :: 0 <= k < |events| ==> Newer(Run(table, events[..k]), events[k])
  }

  ghost predicate RestartsBefore(table: seq<Row>, events: seq<Event>, n: nat)
    requires n <= |events|
  {
    exists k :: 0 <= k < n && Restarts(Run(table, events[..k]), events[k])
  }

  lemma RunNext(table: seq<Row>, events: seq<Event>, k: nat)
    requires k < |events|
    ensures Run(table, events[..k + 1]) == Step(Run(table, events[..k]), events[k])
  {
    assert Front(events[..k + 1]) == events[..k];
  }

  /** Up to the first restart the walk goes on. */
  lemma {:induction false} WalkKeeps(table: seq<Row>, events: seq<Event>, n: nat)
    requires Ordered(table) && OnlyNewer(table, events) && n <= |events| && !RestartsBefore(table, events, n)
    ensures Inv(Run(table, events[..n]))
    decreases n
  {
    if n == 0 {
      assert events[..0] == [] && table[|table|..] == [];
    } else {
      WalkKeeps(table, events, n - 1);
      RunNext(table, events, n - 1);
      StepKeeps(Run(table, events[..n - 1]), events[n - 1]);
    }
  }

  lemma {:induction false} FirstRestart(table: seq<Row>, events: seq<Event>, n: nat) returns (k: nat)
    requires n <= |events| && RestartsBefore(table, events, n)
    ensures k < n && Restarts(Run(table, events[..k]), events[k]) && !RestartsBefore(table, events, k)
    decreases n
  {
    if RestartsBefore(table, events, n - 1) {
      k := FirstRestart(table, events, n - 1);
    } else {
      k := n - 1;
    }
  }

  /** At every moment the rows held are the top of the record as it was when the walk began. */
  ghost predicate AlwaysTop(table: seq<Row>, events: seq<Event>) {
    forall n :: 0 <= n <= |events| ==> Run(table, events[..n]).column.rows <= Run(table, events[..n]).loaded
  }

  /** Over every history in which rows are written only at the top, rounds refused or not, rows able to be
      a cursor or not: the rows held are always the top of the record as it was when the walk began, if and
      only if no page was ever appended to them that was asked for without a cursor. */
  lemma AlwaysTopIff(table: seq<Row>, events: seq<Event>)
    requires Ordered(table) && OnlyNewer(table, events)
    ensures AlwaysTop(table, events) <==> !RestartsBefore(table, events, |events|)
  {
    if RestartsBefore(table, events, |events|) {
      var k := FirstRestart(table, events, |events|);
      WalkKeeps(table, events, k);
      RestartBreaks(Run(table, events[..k]));
      RunNext(table, events, k);
    } else {
      forall n | 0 <= n <= |events| ensures Run(table, events[..n]).column.rows <= Run(table, events[..n]).loaded {
        WalkKeeps(table, events, n);
      }
    }
  }

  // ---------------------------------------------------------------- when every row can be a cursor

  ghost predicate AllCursors(table: seq<Row>) {
    forall k :: 0 <= k < |table| ==> KeysetCursor(table[k]).Some?
  }

  ghost predicate NewerCursors(events: seq<Event>) {
    forall k :: 0 <= k < |events| && events[k].EvWritten? ==> AllCursors(events[k].newer)
  }

  lemma {:induction false} TableCursors(table: seq<Row>, events: seq<Event>, n: nat)
    requires AllCursors(table) && NewerCursors(events) && n <= |events|
    ensures AllCursors(Run(table, events[..n]).table)
    decreases n
  {
    if n == 0 {
      assert events[..0] == [];
    } else {
      TableCursors(table, events, n - 1);
      RunNext(table, events, n - 1);
    }
  }

  lemma CursorsNeverRestart(s: State, e: Event)
    requires Inv(s) && AllCursors(s.table)
    ensures !Restarts(s, e)
  {
    var rows, skipped := s.column.rows, |s.table| - |s.loaded|;
    if rows != [] {
      assert Last(rows) == s.loaded[|rows| - 1] == s.table[skipped + |rows| - 1];
    }
  }

  lemma {:induction false} NoRestart(table: seq<Row>, events: seq<Event>, n: nat)
    requires Ordered(table) && OnlyNewer(table, events) && AllCursors(table) && NewerCursors(events) && n <= |events|
    ensures !RestartsBefore(table, events, n)
    decreases n
  {
    if n > 0 {
      NoRestart(table, events, n - 1);
      WalkKeeps(table, events, n - 1);
      TableCursors(table, events, n - 1);
      CursorsNeverRestart(Run(table, events[..n - 1]), events[n - 1]);
    }
  }

  // ---------------------------------------------------------------- in plain fields

  /** A row with a stamp and an id that a number of the browser holds exactly. */
  predicate Plain(row: Row) {
    row.stamp.Some? && 1 <= row.id <= 9_007_199_254_740_991
  }

  /** Strictly below another row, by stamp and then by id. */
  predicate Under(row: Row, other: Row) {
    && row.stamp.Some? && other.stamp.Some?
    && (row.stamp.value < other.stamp.value || (row.stamp.value == other.stamp.value && row.id < other.id))
  }

  ghost predicate AllPlain(table: seq<Row>) {
    forall k :: 0 <= k < |table| ==> Plain(table[k])
  }

  ghost predicate Descending(table: seq<Row>) {
    forall j, k :: 0 <= j < k < |table| ==> Under(table[k], table[j])
  }

  /** Whatever is written comes on top, in order. */
  ghost predicate PlainWrites(table: seq<Row>, events: seq<Event>) {
    forall k :: 0 <= k < |events| && events[k].EvWritten? ==>
      AllPlain(events[k].newer) && Descending(events[k].newer + Run(table, events[..k]).table)
  }

  lemma PlainIsCursor(row: Row)
    ensures KeysetCursor(row) == if Plain(row) then Some(Key(row.stamp.value, row.id)) else None
  {
  }

  lemma PlainIsOrdered(table: seq<Row>)
    requires AllPlain(table) && Descending(table)
    ensures Ordered(table) && AllCursors(table)
  {
    forall k | 0 <= k < |table| { PlainIsCursor(table[k]); }
    forall j, k | 0 <= j < k < |table| ensures table[j] != table[k] && Under(table[k], table[j]) {
    }
  }

  lemma {:induction false} TablePlain(table: seq<Row>, events: seq<Event>, n: nat)
    requires AllPlain(table) && PlainWrites(table, events) && n <= |events|
    ensures AllPlain(Run(table, events[..n]).table)
    decreases n
  {
    if n == 0 {
      assert events[..0] == [];
    } else {
      TablePlain(table, events, n - 1);
      RunNext(table, events, n - 1);
    }
  }

  lemma WritesAreNewer(table: seq<Row>, events: seq<Event>)
    requires AllPlain(table) && PlainWrites(table, events)
    ensures OnlyNewer(table, events) && NewerCursors(events)
  {
    forall k | 0 <= k < |events| && events[k].EvWritten?
      ensures Newer(Run(table, events[..k]), events[k]) && AllCursors(events[k].newer)
    {
      var newer, before := events[k].newer, Run(table, events[..k]).table;
      TablePlain(table, events, k);
      assert AllPlain(newer + before);
      PlainIsOrdered(newer + before);
      forall i | 0 <= i < |newer| { PlainIsCursor(newer[i]); }
    }
  }

  /** On a record of rows with stamps and ids, newest first, written only at its top, the walk is complete:
      over every history the rows held are the top of the record as it was when the walk began, none twice,
      and all of it once the column calls itself exhausted. */
  lemma WalkIsComplete(table: seq<Row>, events: seq<Event>)
    requires AllPlain(table) && Descending(table) && PlainWrites(table, events)
    ensures var s := Run(table, events);
            && s.column.rows <= s.loaded && NoDuplicates(s.column.rows)
            && (s.column.exhausted ==> s.column.rows == s.loaded)
            && |s.loaded| <= |s.table| && s.table[|s.table| - |s.loaded|..] == s.loaded
  {
    PlainIsOrdered(table);
    WritesAreNewer(table, events);
    WalkEnds(table, events);
    TopIsDistinct(Run(table, events));
  }

  lemma WalkEnds(table: seq<Row>, events: seq<Event>)
    requires Ordered(table) && OnlyNewer(table, events) && AllCursors(table) && NewerCursors(events)
    ensures Inv(Run(table, events))
  {
    NoRestart(table, events, |events|);
    WalkKeeps(table, events, |events|);
    assert events[..|events|] == events;
  }

  lemma TopIsDistinct(s: State)
    requires Inv(s)
    ensures s.column.rows <= s.loaded && NoDuplicates(s.column.rows)
    ensures s.column.exhausted ==> s.column.rows == s.loaded
    ensures |s.loaded| <= |s.table| && s.table[|s.table| - |s.loaded|..] == s.loaded
  {
    assert forall k :: 0 <= k < |s.loaded| ==> s.loaded[k] == s.table[|s.table| - |s.loaded| + k];
    assert forall k :: 0 <= k < |s.column.rows| ==> s.column.rows[k] == s.loaded[k];
  }

  /** A refused or malformed answer loses nothing, and shows; the next page takes the refusal away. */
  lemma RefusalLosesNothing(s: State, answer: Answer)
    requires s.column.asked.Some?
    ensures var c := Step(s, EvAnswer(answer)).column;
            && c.asked.None? && (c.refusal <==> !answer.Page?)
            && (!answer.Page? ==>
                  c.rows == s.column.rows && c.cursor == s.column.cursor && c.exhausted == s.column.exhausted)
  {
  }

  /** One question at a time: while one is open nothing is asked, and without one no answer is taken. */
  lemma OneQuestion(s: State, append: bool, answer: Answer)
    ensures s.column.asked.Some? ==> Step(s, EvAsk(append)) == s
    ensures s.column.asked.None? ==>
              && Step(s, EvAnswer(answer)) == s
              && Step(s, EvAsk(append)).column.asked.Some? && Step(s, EvAsk(append)).column.asked.value.append == append
  {
  }

  // ---------------------------------------------------------------- a row that cannot be a cursor

  lemma StepKept(s: State, e: Event)
    requires Kept(s.column)
    ensures Kept(Step(s, e).column)
  {
  }

  lemma {:induction false} RunKept(table: seq<Row>, events: seq<Event>)
    ensures Kept(Run(table, events).column)
  {
    if events != [] {
      RunKept(table, Front(events));
      StepKept(Run(table, Front(events)), Last(events));
    }
  }

  /** Over every history an open question that appends asks below the last row held, by its stamp and id,
      exactly when that row has both; any other question carries no cursor. */
  lemma CursorIsLastRow(table: seq<Row>, events: seq<Event>)
    requires Run(table, events).column.asked.Some?
    ensures var c := Run(table, events).column;
            c.asked.value.before
            == if c.asked.value.append && c.rows != [] && Plain(Last(c.rows))
               then Some(Key(Last(c.rows).stamp.value, Last(c.rows).id)) else None
  {
    RunKept(table, events);
  }

  /** The first page of rows strictly below another. */
  function FirstUnder(table: seq<Row>, last: Row, n: nat): seq<Row> {
    if table == [] || n == 0 then []
    else if Under(table[0], last) then [table[0]] + FirstUnder(table[1..], last, n - 1)
    else FirstUnder(table[1..], last, n)
  }

  lemma {:induction false} BelowIsUnder(table: seq<Row>, last: Row, n: nat)
    requires Plain(last)
    ensures var rows := Below(table, Key(last.stamp.value, last.id));
            FirstUnder(table, last, n) == (if |rows| > n then rows[..n] else rows)
  {
    if table != [] {
      BelowIsUnder(table[1..], last, if n > 0 && Under(table[0], last) then n - 1 else n);
    }
  }

  lemma {:induction false} FirstUnderLies(table: seq<Row>, last: Row, n: nat)
    ensures |FirstUnder(table, last, n)| <= n
    ensures forall k :: 0 <= k < |FirstUnder(table, last, n)| ==> Under(FirstUnder(table, last, n)[k], last)
  {
    if table != [] && n > 0 {
      FirstUnderLies(table[1..], last, if Under(table[0], last) then n - 1 else n);
    }
  }

  predicate Unfit(row: Row) {
    row.stamp.None? || row.id < 1 || row.id > 9_007_199_254_740_991
  }

  /** After any history: appended to the rows held are the first 25 rows strictly below the last of them, or,
      if and only if that row has no stamp or no fit id, the top of the record again. */
  lemma TopComesAgainIff(table: seq<Row>, events: seq<Event>)
    requires var s := Run(table, events); s.column.asked.None? && s.column.rows != [] && s.table != []
    ensures var s := Run(table, events);
            var rows, all := s.column.rows, Run(table, events + [EvAsk(true)] + [EvAnswer(Page)]).column.rows;
            var last, top := Last(rows), s.table[..if |s.table| < 25 then |s.table| else 25];
            && all == rows + (if Unfit(last) then top else FirstUnder(s.table, last, 25))
            && (!Under(s.table[0], last) ==> (all == rows + top <==> Unfit(last)))
  {
    var s, last := Run(table, events), Last(Run(table, events).column.rows);
    var page := HostPage(s.table, Step(s, EvAsk(true)).column.asked.value.before);
    NextRound(table, events);
    RunKept(table, events);
    var top := s.table[..if |s.table| < 25 then |s.table| else 25];
    var under := FirstUnder(s.table, last, 25);
    FirstUnderLies(s.table, last, 25);
    if Unfit(last) {
      assert page == top;
    } else {
      BelowIsUnder(s.table, last, 25);
      assert page == under;
      assert top[0] == s.table[0];
      if under != [] && under[0] != top[0] { assert (s.column.rows + under)[|s.column.rows|] == under[0]; }
      AppendsApart(s.column.rows, under, top, last);
    }
  }

  lemma AppendsApart(rows: seq<Row>, under: seq<Row>, top: seq<Row>, last: Row)
    requires top != [] && forall k :: 0 <= k < |under| ==> Under(under[k], last)
    ensures !Under(top[0], last) ==> rows + under != rows + top
  {
    if rows + under == rows + top {
      assert under == (rows + under)[|rows|..] == (rows + top)[|rows|..] == top;
    }
  }

  lemma NextRound(table: seq<Row>, events: seq<Event>)
    requires Run(table, events).column.asked.None?
    ensures var s, t := Run(table, events), Run(table, events + [EvAsk(true)] + [EvAnswer(Page)]);
            var page := HostPage(s.table, Step(s, EvAsk(true)).column.asked.value.before);
            t.column.rows == s.column.rows + page && t.table == s.table && t.column.asked.None?
            && (t.column.exhausted <==> |page| < 25)
  {
    Snoc(events, EvAsk(true));
    Snoc(events + [EvAsk(true)], EvAnswer(Page));
  }

  // ---------------------------------------------------------------- the walk ends

  /** A load and n - 1 rounds of more. */
  function Rounds(n: nat): seq<Event>
    requires n > 0
  {
    if n == 1 then [EvAsk(false)] + [EvAnswer(Page)] else Rounds(n - 1) + [EvAsk(true)] + [EvAnswer(Page)]
  }

  function Covered(table: seq<Row>, n: nat): nat {
    if 25 * n < |table| then 25 * n else |table|
  }

  lemma FirstRound(table: seq<Row>)
    ensures var s := Run(table, [EvAsk(false)] + [EvAnswer(Page)]);
            && s.table == table && s.column.asked.None? && s.column.rows == table[..Covered(table, 1)]
            && (s.column.exhausted <==> |table| < 25)
  {
    Snoc([EvAsk(false)], EvAnswer(Page));
    Snoc([], EvAsk(false));
    assert [] + [EvAsk(false)] == [EvAsk(false)];
    assert Run(table, [EvAsk(false)]) == State(Ask(OPENED, false), table, []);
  }

  /** What a round asked below the n-th row brings. */
  lemma PageAfter(table: seq<Row>, n: nat)
    requires AllPlain(table) && Descending(table) && n <= |table|
    ensures var before := if n == 0 then None else KeysetCursor(table[n - 1]);
            HostPage(table, before) == table[n..if n + 25 < |table| then n + 25 else |table|]
  {
    PlainIsOrdered(table);
    if n > 0 { BelowIsSuffix(table, n); }
  }

  ghost predicate Walked(s: State, table: seq<Row>, done: nat) {
    done <= |table| && s.table == table && s.column.asked.None? && s.column.rows == table[..done]
  }

  lemma AsksOn(table: seq<Row>, events: seq<Event>, done: nat)
    requires Walked(Run(table, events), table, done)
    ensures Step(Run(table, events), EvAsk(true)).column.asked.value.before
         == if done == 0 then None else KeysetCursor(table[done - 1])
  {
    var s := Run(table, events);
    RunKept(table, events);
    if done > 0 { assert Last(s.column.rows) == table[done - 1]; }
    AsksBelow(s, table, done);
  }

  lemma RoundAdds(table: seq<Row>, events: seq<Event>, done: nat)
    requires AllPlain(table) && Descending(table) && Walked(Run(table, events), table, done)
    ensures var t := Run(table, events + [EvAsk(true)] + [EvAnswer(Page)]);
            && Walked(t, table, if done + 25 < |table| then done + 25 else |table|)
            && (t.column.exhausted <==> done + 25 > |table|)
  {
    var next := if done + 25 < |table| then done + 25 else |table|;
    AsksOn(table, events, done);
    PageAfter(table, done);
    NextRound(table, events);
    assert table[..done] + table[done..next] == table[..next];
  }

  lemma AsksBelow(s: State, table: seq<Row>, done: nat)
    requires Kept(s.column) && Walked(s, table, done) && (done > 0 ==> Last(s.column.rows) == table[done - 1])
    ensures Step(s, EvAsk(true)).column.asked.value.before == if done == 0 then None else KeysetCursor(table[done - 1])
  {
  }

  /** After n rounds the first 25 n rows are held, or the whole record; and it is the whole record, and called
      exhausted, as soon as 25 n exceeds its length. */
  lemma {:induction false} WalkReachesTheEnd(table: seq<Row>, n: nat)
    requires AllPlain(table) && Descending(table) && n > 0
    ensures Walked(Run(table, Rounds(n)), table, Covered(table, n))
    ensures Run(table, Rounds(n)).column.exhausted <==> 25 * n > |table|
  {
    if n == 1 {
      FirstRound(table);
    } else {
      WalkReachesTheEnd(table, n - 1);
      RoundAdds(table, Rounds(n - 1), Covered(table, n - 1));
    }
  }

  const STAMPLESS := Row(None, 1, "row")

  /** A record of one row without a stamp, asked for twice: the row is held twice. */
  lemma TopIsHeldTwice()
    ensures Run([STAMPLESS], [EvAsk(false), EvAnswer(Page), EvAsk(true), EvAnswer(Page)]).column.rows
         == [STAMPLESS, STAMPLESS]
  {
    var events := [EvAsk(false), EvAnswer(Page), EvAsk(true), EvAnswer(Page)];
    RunNext([STAMPLESS], events, 0);
    RunNext([STAMPLESS], events, 1);
    RunNext([STAMPLESS], events, 2);
    RunNext([STAMPLESS], events, 3);
    assert events[..0] == [] && events[..4] == events;
    assert HostPage([STAMPLESS], None) == [STAMPLESS];
  }

  lemma {:induction false} BelowOlder(table: seq<Row>, key: Key)
    ensures forall k :: 0 <= k < |Below(table, key)| ==> Older(Below(table, key)[k], key)
  {
    if table != [] {
      BelowOlder(table[1..], key);
    }
  }
}
