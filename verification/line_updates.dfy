/** The updates applied to one value stream's production-line list. Every
    line whose id matches is affected: ids are not assumed unique here. */
module LineUpdates {
  import opened Records
  import opened Sequences

  /** Number of lines carrying `lineId`. */
  function Occurrences(ls: seq<Line>, lineId: string): (n: nat)
    ensures n <= |ls|
    ensures n == 0 <==> forall i :: 0 <= i < |ls| ==> ls[i].id != lineId
  {
    if ls == [] then 0
    else (if ls[0].id == lineId then 1 else 0) + Occurrences(ls[1..], lineId)
  }

  /** Ids are non-empty and pairwise distinct within one line list. */
  predicate LinesWellFormed(ls: seq<Line>) {
    && (forall i :: 0 <= i < |ls| ==> ls[i].id != "")
    && (forall i, j :: 0 <= i < j < |ls| ==> ls[i].id != ls[j].id)
  }

  /** Sets the activity flag of every line carrying `lineId`; only that
      flag of the matching lines changes. */
  function SetLinesActive(ls: seq<Line>, lineId: string, active: bool): (r: seq<Line>)
    ensures |r| == |ls|
    ensures forall i :: 0 <= i < |ls| ==> r[i] == ls[i].(isActive := r[i].isActive)
    ensures forall i :: 0 <= i < |ls| ==> r[i].isActive == (if ls[i].id == lineId then active else ls[i].isActive)
  {
    MapWhere(ls, (l: Line) => l.id == lineId, (l: Line) => l.(isActive := active))
  }

  /** Writes the form fields over every line carrying `lineId`: matching
      lines take the fields and keep their id; others are untouched. */
  function EditLines(ls: seq<Line>, lineId: string, f: Fields): (r: seq<Line>)
    ensures |r| == |ls|
    ensures forall i :: 0 <= i < |ls| ==> r[i].id == ls[i].id
    ensures forall i :: 0 <= i < |ls| && ls[i].id == lineId ==> LineFields(r[i]) == f
    ensures forall i :: 0 <= i < |ls| && ls[i].id != lineId ==> r[i] == ls[i]
  {
    MapWhere(ls, (l: Line) => l.id == lineId, (l: Line) => WithLineFields(l, f))
  }

  /** Drops every line carrying `lineId`, keeping the rest in order. */
  function RemoveLines(ls: seq<Line>, lineId: string): (r: seq<Line>)
    ensures forall i :: 0 <= i < |r| ==> r[i].id != lineId && r[i] in ls
    ensures forall i :: 0 <= i < |ls| && ls[i].id != lineId ==> ls[i] in r
  {
    Filter(ls, (l: Line) => l.id != lineId)
  }

  /** Removal deletes exactly the lines carrying `lineId`. */
  lemma {:induction false} RemoveLinesCount(ls: seq<Line>, lineId: string)
    ensures |RemoveLines(ls, lineId)| + Occurrences(ls, lineId) == |ls|
  {
    if ls != [] {
      RemoveLinesCount(ls[1..], lineId);
    }
  }

  /** Removal keeps the surviving lines in their original order: it
      distributes over any split of the list. */
  lemma RemoveLinesAppend(a: seq<Line>, b: seq<Line>, lineId: string)
    ensures RemoveLines(a + b, lineId) == RemoveLines(a, lineId) + RemoveLines(b, lineId)
  {
    FilterAppend(a, b, (l: Line) => l.id != lineId);
  }

  /** A list without `lineId` is left as it is by removal. */
  lemma RemoveLinesAbsent(ls: seq<Line>, lineId: string)
    requires Occurrences(ls, lineId) == 0
    ensures RemoveLines(ls, lineId) == ls
  {
  }

  /** Appending a line with an id not yet in the list and then removing that
      id gives the list back. */
  lemma AppendThenRemove(ls: seq<Line>, l: Line)
    requires Occurrences(ls, l.id) == 0
    ensures RemoveLines(ls + [l], l.id) == ls
  {
    RemoveLinesAppend(ls, [l], l.id);
    assert RemoveLines([l], l.id) == [];
  }

  /** Removing twice is removing once. */
  lemma RemoveLinesIdempotent(ls: seq<Line>, lineId: string)
    ensures RemoveLines(RemoveLines(ls, lineId), lineId) == RemoveLines(ls, lineId)
  {
  }

  /** Removal keeps a line list well formed. */
  lemma {:induction false} RemoveLinesWellFormed(ls: seq<Line>, lineId: string)
    requires LinesWellFormed(ls)
    ensures LinesWellFormed(RemoveLines(ls, lineId))
  {
    if ls != [] {
      var tail := RemoveLines(ls[1..], lineId);
      assert LinesWellFormed(ls[1..]);
      RemoveLinesWellFormed(ls[1..], lineId);
      if ls[0].id != lineId {
        assert RemoveLines(ls, lineId) == [ls[0]] + tail;
        forall k | 0 <= k < |tail|
          ensures tail[k].id != ls[0].id
        {
          var m :| 0 <= m < |ls[1..]| && ls[1..][m] == tail[k];
          assert ls[m + 1] == tail[k];
        }
      } else {
        assert RemoveLines(ls, lineId) == tail;
      }
    }
  }

  /** Appending a line with a fresh, non-empty id keeps a line list well formed. */
  lemma AppendWellFormed(ls: seq<Line>, l: Line)
    requires LinesWellFormed(ls)
    requires l.id != "" && Occurrences(ls, l.id) == 0
    ensures LinesWellFormed(ls + [l])
  {
  }

  /** Two activity writes on the same id: the last one wins. */
  lemma SetLinesActiveLastWins(ls: seq<Line>, lineId: string, a: bool, b: bool)
    ensures SetLinesActive(SetLinesActive(ls, lineId, a), lineId, b) == SetLinesActive(ls, lineId, b)
  {
  }

  /** Writing the activity every matching line already has changes nothing. */
  lemma SetLinesActiveNoChange(ls: seq<Line>, lineId: string, active: bool)
    requires forall i :: 0 <= i < |ls| && ls[i].id == lineId ==> ls[i].isActive == active
    ensures SetLinesActive(ls, lineId, active) == ls
  {
  }

  /** Editing every matching line with the fields it already has changes nothing. */
  lemma EditLinesNoChange(ls: seq<Line>, lineId: string, f: Fields)
    requires forall i :: 0 <= i < |ls| && ls[i].id == lineId ==> LineFields(ls[i]) == f
    ensures EditLines(ls, lineId, f) == ls
  {
  }
}
