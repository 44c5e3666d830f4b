/** The vocabulary CSV preview (backend/app/controllers/vocabulary.py): every
    row the CSV reader yields is either turned into a stripped item or
    reported as missing a required field. */
module Vocabulary {
  import opened Base
  import opened Strings

  /** A cell of a row as `csv.DictReader` yields it: the column is not in
      the header, the row is too short so the reader filled in `None`, or
      the text. */
  datatype Cell = NoColumn | ShortRow | Text(text: string)

  datatype Row = Row(word: Cell, translation: Cell, partOfSpeech: Cell, exampleSentence: Cell, regionalNotes: Cell)

  datatype Item = Item(
    word: string,
    translation: string,
    partOfSpeech: Option<string>,
    exampleSentence: Option<string>,
    regionalNotes: Option<string>)

  datatype Preview = Preview(items: seq<Item>, total: nat, errors: seq<string>)

  /** `row.get(key)`: `None` when the key is absent or the reader filled in `None`. */
  function Get(c: Cell): Option<string> {
    match c
    case Text(s) => Some(s)
    case _ => None
  }

  /** The required-field check: a missing, `None` or empty word or translation fails it. */
  predicate HasRequired(r: Row) {
    Get(r.word).Some? && Get(r.word).value != "" && Get(r.translation).Some? && Get(r.translation).value != ""
  }

  function MissingField(i: nat): string {
    "Row " + NatToString(i + 1) + ": missing required field"
  }

  /** `row.get(key, '').strip() or None` with a short row's `None` read as
      the empty string. */
  function OptionalField(c: Cell): (r: Option<string>)
    ensures r.Some? ==> c.Text? && r.value == Trim(c.text) && r.value != ""
    ensures r.None? <==> !c.Text? || Trim(c.text) == ""
  {
    match c
    case Text(s) => if Trim(s) == "" then None else Some(Trim(s))
    case _ => None
  }

  function ItemOf(r: Row): (it: Item)
    requires HasRequired(r)
    ensures it.word == Trim(r.word.text) && it.translation == Trim(r.translation.text)
  {
    Item(Trim(r.word.text), Trim(r.translation.text),
         OptionalField(r.partOfSpeech), OptionalField(r.exampleSentence), OptionalField(r.regionalNotes))
  }

  /** The items and errors after the rows `rows`, in reading order. */
  function Outcome(rows: seq<Row>): (seq<Item>, seq<string>)
    decreases |rows|
  {
    if |rows| == 0 then ([], [])
    else
      var (items, errors) := Outcome(rows[..|rows| - 1]);
      var r := rows[|rows| - 1];
      if HasRequired(r) then (items + [ItemOf(r)], errors)
      else (items, errors + [MissingField(|rows| - 1)])
  }

  /** The endpoint's response. */
  function PreviewRows(rows: seq<Row>): (p: Preview)
    ensures |p.items| + |p.errors| == |rows| && p.total == |p.items|
  {
    OutcomeCounts(rows);
    var (items, errors) := Outcome(rows);
    Preview(items, |items|, errors)
  }

  // ---------------------------------------------------------------------------
  // The source as written: a short row crashes `.strip()`

  const NoStrip := "'NoneType' object has no attribute 'strip'"

  function OptionalFieldAsWritten(c: Cell): Result<Option<string>, string> {
    match c
    case NoColumn => Ok(None)
    case ShortRow => Err(NoStrip)
    case Text(s) => Ok(if Trim(s) == "" then None else Some(Trim(s)))
  }

  function ItemAsWritten(r: Row): Result<Item, string>
    requires HasRequired(r)
  {
    match OptionalFieldAsWritten(r.partOfSpeech)
    case Err(e) => Err(e)
    case Ok(pos) =>
      match OptionalFieldAsWritten(r.exampleSentence)
      case Err(e) => Err(e)
      case Ok(ex) =>
        match OptionalFieldAsWritten(r.regionalNotes)
        case Err(e) => Err(e)
        case Ok(notes) => Ok(Item(Trim(r.word.text), Trim(r.translation.text), pos, ex, notes))
  }

  /** The preview as the source computes it: the first valid row that is
      shorter than the header raises and the request fails. */
  function PreviewAsWritten(rows: seq<Row>): (r: Result<Preview, string>)
    ensures r.Err? ==> r.error == NoStrip
    ensures r.Ok? ==> |r.value.items| + |r.value.errors| == |rows| && r.value.total == |r.value.items|
    decreases |rows|
  {
    if |rows| == 0 then Ok(Preview([], 0, []))
    else
      match PreviewAsWritten(rows[..|rows| - 1])
      case Err(e) => Err(e)
      case Ok(p) =>
        var r := rows[|rows| - 1];
        if !HasRequired(r) then Ok(p.(errors := p.errors + [MissingField(|rows| - 1)]))
        else match ItemAsWritten(r)
          case Err(e) => Err(e)
          case Ok(it) => Ok(Preview(p.items + [it], p.total + 1, p.errors))
  }

  /** A header with `part_of_speech` and a row such as `gato,cat` that stops
      after the translation: the reader fills in `None` for the third column
      and the preview raises, where the corrected preview gives the item. */
  lemma ShortRowCrashes(w: string, t: string)
    requires w != "" && t != ""
    ensures PreviewAsWritten([Row(Text(w), Text(t), ShortRow, NoColumn, NoColumn)]) == Err(NoStrip)
    ensures PreviewRows([Row(Text(w), Text(t), ShortRow, NoColumn, NoColumn)]).items
      == [Item(Trim(w), Trim(t), None, None, None)]
  {
    var rows := [Row(Text(w), Text(t), ShortRow, NoColumn, NoColumn)];
    assert rows[..0] == [];
    assert HasRequired(rows[0]);
    assert ItemAsWritten(rows[0]) == Err(NoStrip);
    assert ItemOf(rows[0]) == Item(Trim(w), Trim(t), None, None, None);
    assert Outcome(rows[..0]) == ([], []);
  }

  predicate NoShortCell(r: Row) {
    r.partOfSpeech != ShortRow && r.exampleSentence != ShortRow && r.regionalNotes != ShortRow
  }

  lemma ItemAgrees(r: Row)
    requires HasRequired(r) && NoShortCell(r)
    ensures ItemAsWritten(r) == Ok(ItemOf(r))
  {
  }

  /** Where no row is short, the source and the corrected preview agree. */
  lemma {:induction false} AsWrittenAgrees(rows: seq<Row>)
    requires forall k :: 0 <= k < |rows| ==> NoShortCell(rows[k])
    ensures PreviewAsWritten(rows) == Ok(PreviewRows(rows))
    decreases |rows|
  {
    if |rows| > 0 {
      var init := rows[..|rows| - 1];
      assert forall k :: 0 <= k < |init| ==> init[k] == rows[k];
      AsWrittenAgrees(init);
      AsWrittenStep(rows);
    }
  }

  lemma AsWrittenStep(rows: seq<Row>)
    requires |rows| > 0 && NoShortCell(rows[|rows| - 1])
    requires PreviewAsWritten(rows[..|rows| - 1]) == Ok(PreviewRows(rows[..|rows| - 1]))
    ensures PreviewAsWritten(rows) == Ok(PreviewRows(rows))
  {
    var o := Outcome(rows[..|rows| - 1]);
    var r := rows[|rows| - 1];
    assert PreviewRows(rows[..|rows| - 1]) == Preview(o.0, |o.0|, o.1);
    if HasRequired(r) {
      ItemAgrees(r);
      assert Outcome(rows) == (o.0 + [ItemOf(r)], o.1);
    } else {
      assert Outcome(rows) == (o.0, o.1 + [MissingField(|rows| - 1)]);
    }
  }

  // ---------------------------------------------------------------------------
  // Properties of the corrected preview

  /** Every row gives exactly one item or one error, and `total` counts the items. */
  lemma {:induction false} OutcomeCounts(rows: seq<Row>)
    ensures |Outcome(rows).0| + |Outcome(rows).1| == |rows|
    decreases |rows|
  {
    if |rows| > 0 {
      OutcomeCounts(rows[..|rows| - 1]);
    }
  }

  /** Reading more rows only appends: both lists keep row order. */
  lemma {:induction false} PreviewPrefix(rows: seq<Row>, k: nat)
    requires k <= |rows|
    ensures Outcome(rows[..k]).0 <= Outcome(rows).0
    ensures Outcome(rows[..k]).1 <= Outcome(rows).1
    decreases |rows| - k
  {
    if k < |rows| {
      PreviewPrefix(rows, k + 1);
      OneMoreRow(rows, k);
    } else {
      assert rows[..k] == rows;
    }
  }

  lemma OneMoreRow(rows: seq<Row>, k: nat)
    requires k < |rows|
    ensures Outcome(rows[..k]).0 <= Outcome(rows[..k + 1]).0
    ensures Outcome(rows[..k]).1 <= Outcome(rows[..k + 1]).1
    ensures HasRequired(rows[k]) ==> Outcome(rows[..k + 1]) == (Outcome(rows[..k]).0 + [ItemOf(rows[k])], Outcome(rows[..k]).1)
    ensures !HasRequired(rows[k]) ==> Outcome(rows[..k + 1]) == (Outcome(rows[..k]).0, Outcome(rows[..k]).1 + [MissingField(k)])
  {
    var p := rows[..k + 1];
    assert p[..|p| - 1] == rows[..k] && p[|p| - 1] == rows[k];
  }

  /** Row `k` becomes the next item, stripped, when it has its required
      fields, and the error "Row k+1: ..." otherwise. */
  lemma RowOutcome(rows: seq<Row>, k: nat)
    requires k < |rows|
    ensures var before := Outcome(rows[..k]);
      var after := Outcome(rows);
      && (HasRequired(rows[k]) ==>
            |before.0| < |after.0| && after.0[|before.0|] == ItemOf(rows[k]) && |Outcome(rows[..k + 1]).1| == |before.1|)
      && (!HasRequired(rows[k]) ==>
            |before.1| < |after.1| && after.1[|before.1|] == MissingField(k) && |Outcome(rows[..k + 1]).0| == |before.0|)
  {
    PreviewPrefix(rows, k + 1);
    OneMoreRow(rows, k);
  }

  /** A word of only spaces passes the check and becomes the empty word. */
  lemma BlankWordKept(w: string, t: string, rest: Row)
    requires w != "" && forall k :: 0 <= k < |w| ==> IsSpace(w[k])
    requires t != ""
    ensures var r := rest.(word := Text(w), translation := Text(t));
      HasRequired(r) && ItemOf(r).word == ""
  {
  }

  /** The request handler's loop, in the corrected version (see `PreviewRows`):
      a short row gives an item with `None` in its missing cells, where the
      loop as written raises (`ShortRowCrashes`, `PreviewAsWritten`). */
  method PreviewUpload(rows: seq<Row>) returns (p: Preview)
    ensures p == PreviewRows(rows)
  {
    var items: seq<Item> := [];
    var errors: seq<string> := [];
    for i := 0 to |rows|
      invariant (items, errors) == Outcome(rows[..i])
    {
      OneMoreRow(rows, i);
      var row := rows[i];
      if !HasRequired(row) {
        errors := errors + [MissingField(i)];
        continue;
      }
      items := items + [ItemOf(row)];
    }
    assert rows[..|rows|] == rows;
    p := Preview(items, |items|, errors);
  }
}
