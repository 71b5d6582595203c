/**
 * The `Submission` table: rows are appended by POST /score and read back,
 * in insertion order, by GET /history and GET /score-summary. The relational
 * store is modelled as an in-memory sequence of rows.
 */
module Store {
  import opened Wrappers
  import Json

  /** One row: the suggestions column holds the JSON text of the list. */
  datatype Submission = Submission(
    id: nat,
    productName: string,
    sustainabilityScore: int,
    rating: string,
    suggestions: string)

  /** One item of the history, with the suggestions decoded. */
  datatype Entry = Entry(
    productName: string,
    sustainabilityScore: int,
    rating: string,
    suggestions: seq<string>)

  /** The row that stores entry `e` under id `id`, its suggestions written as JSON text. */
  function Row(id: nat, e: Entry): Submission
  {
    Submission(id, e.productName, e.sustainabilityScore, e.rating, Json.EncodeStrings(e.suggestions))
  }

  /**
   * A row as the history reads it back: the row's own name, score and rating,
   * and its suggestions column decoded, so a column holding the JSON text of a
   * list reads back as exactly that list.
   */
  function Load(row: Submission): (r: Entry)
    ensures r.productName == row.productName && r.sustainabilityScore == row.sustainabilityScore
    ensures r.rating == row.rating
    ensures forall ss :: row.suggestions == Json.EncodeStrings(ss) ==> r.suggestions == ss
  {
    Json.DecodeEncodeAny(row.suggestions);
    var decoded := match Json.DecodeStrings(row.suggestions)
      case Some(ss) => ss
      case None => [];
    Entry(row.productName, row.sustainabilityScore, row.rating, decoded)
  }

  function LoadAll(rows: seq<Submission>): seq<Entry>
  {
    seq(|rows|, i requires 0 <= i < |rows| => Load(rows[i]))
  }

  /** The rows a new store holds after `Add` has stored the entries `es` one by one. */
  function Stored(es: seq<Entry>): seq<Submission>
  {
    if es == [] then [] else Stored(es[..|es| - 1]) + [Row(|es|, es[|es| - 1])]
  }

  class SubmissionStore {
    var rows: seq<Submission>

    /** Ids are assigned 1, 2, 3, ... in insertion order, and every stored list decodes. */
    ghost predicate Valid()
      reads this
    {
      forall i :: 0 <= i < |rows| ==> rows[i].id == i + 1 && Json.DecodeStrings(rows[i].suggestions).Some?
    }

    /** What the history shows. */
    ghost function Entries(): seq<Entry>
      reads this
    {
      LoadAll(rows)
    }

    constructor ()
      ensures Valid() && rows == []
    {
      rows := [];
    }

    /** `db.session.add(entry)` followed by `commit()`: appends one row with the next id. */
    method Add(productName: string, score: int, rating: string, suggestions: seq<string>) returns (row: Submission)
      requires Valid()
      modifies this
      ensures Valid()
      ensures row == Row(|old(rows)| + 1, Entry(productName, score, rating, suggestions))
      ensures rows == old(rows) + [row]
      ensures Entries() == old(Entries()) + [Entry(productName, score, rating, suggestions)]
    {
      row := Row(|rows| + 1, Entry(productName, score, rating, suggestions));
      AddedEntryReadsBack(rows, Entry(productName, score, rating, suggestions));
      Json.DecodeEncode(suggestions);
      rows := rows + [row];
    }

    /**
     * A new store given the entries `es` by one `Add` per entry, in order: its
     * rows are `Stored(es)`, and its history is `es` itself.
     */
    method AddAll(es: seq<Entry>)
      requires Valid() && rows == []
      modifies this
      ensures Valid() && rows == Stored(es)
      ensures Entries() == es
    {
      var i := 0;
      while i < |es|
        invariant 0 <= i <= |es|
        invariant Valid() && rows == Stored(es[..i])
      {
        LoadAllStored(es[..i]);
        var _ := Add(es[i].productName, es[i].sustainabilityScore, es[i].rating, es[i].suggestions);
        assert es[..i + 1][..i] == es[..i];
        i := i + 1;
      }
      assert es[..|es|] == es;
      LoadAllStored(es);
    }

    /** `Submission.query.all()` with each row's suggestions decoded, as GET /history lists them. */
    method History() returns (items: seq<Entry>)
      requires Valid()
      ensures items == Entries()
    {
      items := [];
      var i := 0;
      while i < |rows|
        invariant 0 <= i <= |rows|
        invariant |items| == i
        invariant forall k :: 0 <= k < i ==> items[k] == Load(rows[k])
      {
        var row := rows[i];
        var decoded := Json.DecodeStrings(row.suggestions);
        items := items + [Entry(row.productName, row.sustainabilityScore, row.rating, decoded.value)];
        i := i + 1;
      }
    }
  }

  /** What was stored comes back unchanged, after everything stored before it. */
  lemma AddedEntryReadsBack(before: seq<Submission>, e: Entry)
    ensures LoadAll(before + [Row(|before| + 1, e)]) == LoadAll(before) + [e]
  {
    var after := before + [Row(|before| + 1, e)];
    assert Load(after[|before|]) == e;
    assert forall i :: 0 <= i < |before| ==> after[i] == before[i];
  }

  /**
   * A new store that is given the entries `es` one `Add` at a time holds one
   * row per entry with ids 1, 2, 3, ..., and its history is exactly `es`.
   */
  lemma {:induction false} LoadAllStored(es: seq<Entry>)
    ensures |Stored(es)| == |es|
    ensures forall i :: 0 <= i < |es| ==> Stored(es)[i].id == i + 1
    ensures LoadAll(Stored(es)) == es
  {
    if es != [] {
      var init := es[..|es| - 1];
      LoadAllStored(init);
      AddedEntryReadsBack(Stored(init), es[|es| - 1]);
      assert init + [es[|es| - 1]] == es;
    }
  }
}
