/** The column object of a shelf: `askColumn`, cut at its await. */
module SedimentColumnClass {
  import opened Basics
  import opened Sediment

  class SedimentColumn {
    var rows: seq<Row>
    var cursor: Option<Key>
    var exhausted: bool
    var refusal: bool
    var asked: Option<Question>

    ghost function Snapshot(): Column
      reads this
    {
      Column(rows, cursor, exhausted, refusal, asked)
    }

    ghost predicate Valid()
      reads this
    {
      Kept(Snapshot())
    }

    constructor ()
      ensures Valid() && Snapshot() == OPENED
    {
      rows, cursor, exhausted, refusal, asked := [], None, false, false, None;
    }

    method AskColumn(append: bool) returns (sent: bool)
      requires Valid()
      modifies `asked
      ensures Valid() && Snapshot() == Ask(old(Snapshot()), append) && sent == old(asked).None?
    {
      if asked.Some? {
        return false;
      }
      var before := None;
      if append && cursor.Some? {
        before := cursor;
      }
      asked := Some(Question(append, before));
      return true;
    }

    method OnAnswer(answer: Answer, page: seq<Row>)
      requires Valid() && asked.Some?
      modifies this
      ensures Valid() && Snapshot() == Answered(old(Snapshot()), answer, page)
      ensures if answer.Page? then
                && rows == (if old(asked).value.append then old(rows) + page else page)
                && (exhausted <==> |page| < 25)
                && cursor == if rows != [] && Plain(Last(rows)) then Some(Key(Last(rows).stamp.value, Last(rows).id))
                             else None
              else rows == old(rows) && cursor == old(cursor) && exhausted == old(exhausted)
      ensures asked.None? && (refusal <==> !answer.Page?)
    {
      var append := asked.value.append;
      asked := None;
      refusal := !answer.Page?;
      if refusal {
        return;
      }
      rows := if append then rows + page else page;
      exhausted := |page| < PAGE_LIMIT;
      cursor := if rows == [] then None else KeysetCursor(Last(rows));
    }
  }
}
