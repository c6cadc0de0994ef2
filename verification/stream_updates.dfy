/** The updates the handlers hand to `setValueStreams`, each lifted out as a
    total function on the list of value streams. A stream is affected when
    its id matches; every matching stream is, since ids are not assumed
    unique. */
module StreamUpdates {
  import opened Wrappers
  import opened Records
  import opened Sequences
  import opened LineUpdates

  /** Stream ids are non-empty and pairwise distinct, and every stream's
      line list is well formed. The seeded data has this shape and fresh
      ids keep it (see Session). */
  predicate WellFormed(ss: seq<Stream>) {
    && (forall i :: 0 <= i < |ss| ==> ss[i].id != "" && LinesWellFormed(ss[i].lines))
    && (forall i, j :: 0 <= i < j < |ss| ==> ss[i].id != ss[j].id)
  }

  /** No stream carries `id`. */
  predicate StreamIdUnused(ss: seq<Stream>, id: string) {
    forall i :: 0 <= i < |ss| ==> ss[i].id != id
  }

  /** No line of any stream carries `id`. */
  predicate LineIdUnused(ss: seq<Stream>, id: string) {
    forall i :: 0 <= i < |ss| ==> Occurrences(ss[i].lines, id) == 0
  }

  /** `i` is the position of the first stream carrying `streamId`. */
  predicate FirstStreamWith(ss: seq<Stream>, streamId: string, i: int) {
    0 <= i < |ss| && ss[i].id == streamId && forall k :: 0 <= k < i ==> ss[k].id != streamId
  }

  /** `j` is the position of the first line carrying `lineId`. */
  predicate FirstLineWith(ls: seq<Line>, lineId: string, j: int) {
    0 <= j < |ls| && ls[j].id == lineId && forall k :: 0 <= k < j ==> ls[k].id != lineId
  }

  /** There is only one first position. */
  lemma FirstStreamUnique(ss: seq<Stream>, streamId: string, i: int)
    requires FirstStreamWith(ss, streamId, i)
    ensures forall i' :: FirstStreamWith(ss, streamId, i') ==> i' == i
  {
  }

  lemma FirstLineUnique(ls: seq<Line>, lineId: string, j: int)
    requires FirstLineWith(ls, lineId, j)
    ensures forall j' :: FirstLineWith(ls, lineId, j') ==> j' == j
  {
  }

  /** The first stream carrying `streamId`, if any. */
  function FindStream(ss: seq<Stream>, streamId: string): (r: Option<Stream>)
    ensures r.None? <==> StreamIdUnused(ss, streamId)
    ensures r.Some? ==> r.value in ss && r.value.id == streamId
    ensures r.Some? ==> exists i :: 0 <= i < |ss| && ss[i] == r.value
                                    && forall k :: 0 <= k < i ==> ss[k].id != streamId
  {
    Find(ss, (s: Stream) => s.id == streamId)
  }

  /** The first line carrying `lineId`, if any. */
  function FindLine(ls: seq<Line>, lineId: string): (r: Option<Line>)
    ensures r.None? <==> Occurrences(ls, lineId) == 0
    ensures r.Some? ==> r.value in ls && r.value.id == lineId
    ensures r.Some? ==> exists j :: 0 <= j < |ls| && ls[j] == r.value
                                    && forall k :: 0 <= k < j ==> ls[k].id != lineId
  {
    Find(ls, (l: Line) => l.id == lineId)
  }

  /** `handleToggleValueStream`'s update: `isActive := active` on every stream
      with `streamId`; every other field and every other stream unchanged. */
  function SetStreamActive(ss: seq<Stream>, streamId: string, active: bool): (r: seq<Stream>)
    ensures |r| == |ss|
    ensures forall i :: 0 <= i < |ss| ==> r[i] == ss[i].(isActive := r[i].isActive)
    ensures forall i :: 0 <= i < |ss| ==> r[i].isActive == (if ss[i].id == streamId then active else ss[i].isActive)
  {
    MapWhere(ss, (s: Stream) => s.id == streamId, (s: Stream) => s.(isActive := active))
  }

  /** `handleToggleProductionLine`'s update: only `isActive` of the lines with
      `lineId` inside the streams with `streamId` changes; every stream keeps
      its other fields and its line count. */
  function SetLineActive(ss: seq<Stream>, streamId: string, lineId: string, active: bool): (r: seq<Stream>)
    ensures |r| == |ss|
    ensures forall i :: 0 <= i < |ss| ==> r[i] == ss[i].(lines := r[i].lines) && |r[i].lines| == |ss[i].lines|
    ensures forall i :: 0 <= i < |ss| && ss[i].id != streamId ==> r[i] == ss[i]
    ensures forall i, j :: 0 <= i < |ss| && 0 <= j < |ss[i].lines| ==>
              r[i].lines[j] == ss[i].lines[j].(isActive := r[i].lines[j].isActive)
    ensures forall i, j :: 0 <= i < |ss| && 0 <= j < |ss[i].lines| ==>
              r[i].lines[j].isActive ==
                (if ss[i].id == streamId && ss[i].lines[j].id == lineId then active else ss[i].lines[j].isActive)
  {
    MapWhere(ss, (s: Stream) => s.id == streamId,
             (s: Stream) => s.(lines := SetLinesActive(s.lines, lineId, active)))
  }

  /** `handleSaveProductionLine`'s update in edit mode: the lines with
      `lineId` in the streams with `streamId` take the form fields and keep
      their id; all ids, line counts and all other lines are unchanged. */
  function EditLine(ss: seq<Stream>, streamId: string, lineId: string, f: Fields): (r: seq<Stream>)
    ensures |r| == |ss|
    ensures forall i :: 0 <= i < |ss| ==> r[i] == ss[i].(lines := r[i].lines) && |r[i].lines| == |ss[i].lines|
    ensures forall i :: 0 <= i < |ss| && ss[i].id != streamId ==> r[i] == ss[i]
    ensures forall i, j :: 0 <= i < |ss| && 0 <= j < |ss[i].lines| ==> r[i].lines[j].id == ss[i].lines[j].id
    ensures forall i, j :: 0 <= i < |ss| && 0 <= j < |ss[i].lines| && ss[i].id == streamId && ss[i].lines[j].id == lineId ==>
              LineFields(r[i].lines[j]) == f
    ensures forall i, j :: 0 <= i < |ss| && 0 <= j < |ss[i].lines| && ss[i].lines[j].id != lineId ==>
              r[i].lines[j] == ss[i].lines[j]
  {
    MapWhere(ss, (s: Stream) => s.id == streamId,
             (s: Stream) => s.(lines := EditLines(s.lines, lineId, f)))
  }

  /** `handleSaveProductionLine`'s update in add mode: `l` is appended to the
      end of every stream with `streamId`; other streams are untouched. */
  function AddLine(ss: seq<Stream>, streamId: string, l: Line): (r: seq<Stream>)
    ensures |r| == |ss|
    ensures forall i :: 0 <= i < |ss| ==> r[i] == ss[i].(lines := r[i].lines)
    ensures forall i :: 0 <= i < |ss| && ss[i].id != streamId ==> r[i] == ss[i]
    ensures forall i :: 0 <= i < |ss| && ss[i].id == streamId ==>
              |r[i].lines| == |ss[i].lines| + 1 && r[i].lines[..|ss[i].lines|] == ss[i].lines
              && r[i].lines[|ss[i].lines|] == l
  {
    MapWhere(ss, (s: Stream) => s.id == streamId, (s: Stream) => s.(lines := s.lines + [l]))
  }

  /** The confirmed action of `removeProductionLine`: the lines with `lineId`
      disappear from the streams with `streamId`, the remaining lines keep
      their order (see RemoveLinesAppend), other streams are untouched. */
  function RemoveLine(ss: seq<Stream>, streamId: string, lineId: string): (r: seq<Stream>)
    ensures |r| == |ss|
    ensures forall i :: 0 <= i < |ss| ==> r[i] == ss[i].(lines := r[i].lines)
    ensures forall i :: 0 <= i < |ss| && ss[i].id != streamId ==> r[i] == ss[i]
    ensures forall i :: 0 <= i < |ss| && ss[i].id == streamId ==> r[i].lines == RemoveLines(ss[i].lines, lineId)
    ensures forall i, k :: 0 <= i < |ss| && ss[i].id == streamId && 0 <= k < |r[i].lines| ==>
              r[i].lines[k].id != lineId && r[i].lines[k] in ss[i].lines
    ensures forall i, k :: 0 <= i < |ss| && 0 <= k < |ss[i].lines| && ss[i].lines[k].id != lineId ==>
              ss[i].lines[k] in r[i].lines
  {
    MapWhere(ss, (s: Stream) => s.id == streamId, (s: Stream) => s.(lines := RemoveLines(s.lines, lineId)))
  }

  /** `handleSaveValueStream`'s update in edit mode: matching streams take
      the form fields and keep their id and production lines. */
  function EditStream(ss: seq<Stream>, streamId: string, f: Fields): (r: seq<Stream>)
    ensures |r| == |ss|
    ensures forall i :: 0 <= i < |ss| ==> r[i].id == ss[i].id && r[i].lines == ss[i].lines
    ensures forall i :: 0 <= i < |ss| && ss[i].id == streamId ==> StreamFields(r[i]) == f
    ensures forall i :: 0 <= i < |ss| && ss[i].id != streamId ==> r[i] == ss[i]
  {
    MapWhere(ss, (s: Stream) => s.id == streamId, (s: Stream) => WithStreamFields(s, f))
  }

  /** `handleSaveValueStream`'s update in add mode: exactly one stream, made
      of the form fields, the given id and no lines, is appended. */
  function AddStream(ss: seq<Stream>, id: string, f: Fields): (r: seq<Stream>)
    ensures |r| == |ss| + 1 && r[..|ss|] == ss
    ensures r[|ss|].id == id && StreamFields(r[|ss|]) == f && r[|ss|].lines == []
  {
    ss + [NewStream(id, f)]
  }

  // ----- Relations between the updates -----

  /** Two stream activity writes on the same id: the last one wins. */
  lemma SetStreamActiveLastWins(ss: seq<Stream>, streamId: string, a: bool, b: bool)
    ensures SetStreamActive(SetStreamActive(ss, streamId, a), streamId, b) == SetStreamActive(ss, streamId, b)
  {
  }

  /** Writing the activity every matching stream already has changes nothing. */
  lemma SetStreamActiveNoChange(ss: seq<Stream>, streamId: string, active: bool)
    requires forall i :: 0 <= i < |ss| && ss[i].id == streamId ==> ss[i].isActive == active
    ensures SetStreamActive(ss, streamId, active) == ss
  {
  }

  /** Deactivating active streams and reactivating them restores the list. */
  lemma DeactivateReactivateStream(ss: seq<Stream>, streamId: string)
    requires forall i :: 0 <= i < |ss| && ss[i].id == streamId ==> ss[i].isActive
    ensures SetStreamActive(SetStreamActive(ss, streamId, false), streamId, true) == ss
  {
  }

  /** Two line activity writes on the same ids: the last one wins. */
  lemma SetLineActiveLastWins(ss: seq<Stream>, streamId: string, lineId: string, a: bool, b: bool)
    ensures SetLineActive(SetLineActive(ss, streamId, lineId, a), streamId, lineId, b)
            == SetLineActive(ss, streamId, lineId, b)
  {
    var mid := SetLineActive(ss, streamId, lineId, a);
    var r1 := SetLineActive(mid, streamId, lineId, b);
    var r2 := SetLineActive(ss, streamId, lineId, b);
    forall i | 0 <= i < |ss|
      ensures r1[i] == r2[i]
    {
      LinesLastWins(ss[i], mid[i], r1[i], r2[i]);
    }
  }

  /** One stream's share of SetLineActiveLastWins: `mid` agrees with `s`
      except for activity, and `r1`, `r2` both agree with `s` except for
      activity, which they set the same way. */
  lemma LinesLastWins(s: Stream, mid: Stream, r1: Stream, r2: Stream)
    requires mid == s.(lines := mid.lines) && |mid.lines| == |s.lines|
    requires r1 == mid.(lines := r1.lines) && |r1.lines| == |mid.lines|
    requires r2 == s.(lines := r2.lines) && |r2.lines| == |s.lines|
    requires forall j :: 0 <= j < |s.lines| ==> mid.lines[j] == s.lines[j].(isActive := mid.lines[j].isActive)
    requires forall j :: 0 <= j < |s.lines| ==> r1.lines[j] == mid.lines[j].(isActive := r1.lines[j].isActive)
    requires forall j :: 0 <= j < |s.lines| ==> r2.lines[j] == s.lines[j].(isActive := r2.lines[j].isActive)
    requires forall j :: 0 <= j < |s.lines| ==> r1.lines[j].isActive == r2.lines[j].isActive
    ensures r1 == r2
  {
    assert forall j :: 0 <= j < |s.lines| ==> r1.lines[j] == r2.lines[j];
    assert r1.lines == r2.lines;
  }

  /** Writing the activity every matching line already has changes nothing. */
  lemma SetLineActiveNoChange(ss: seq<Stream>, streamId: string, lineId: string, active: bool)
    requires forall i, j :: 0 <= i < |ss| && 0 <= j < |ss[i].lines| && ss[i].id == streamId && ss[i].lines[j].id == lineId
               ==> ss[i].lines[j].isActive == active
    ensures SetLineActive(ss, streamId, lineId, active) == ss
  {
    var r := SetLineActive(ss, streamId, lineId, active);
    forall i | 0 <= i < |ss|
      ensures r[i] == ss[i]
    {
      assert forall j :: 0 <= j < |ss[i].lines| ==> r[i].lines[j] == ss[i].lines[j];
      assert r[i].lines == ss[i].lines;
    }
  }

  /** Editing every matching line with the fields it already has changes nothing. */
  lemma EditLineNoChange(ss: seq<Stream>, streamId: string, lineId: string, f: Fields)
    requires forall i, j :: 0 <= i < |ss| && 0 <= j < |ss[i].lines| && ss[i].id == streamId && ss[i].lines[j].id == lineId
               ==> LineFields(ss[i].lines[j]) == f
    ensures EditLine(ss, streamId, lineId, f) == ss
  {
    var r := EditLine(ss, streamId, lineId, f);
    forall i | 0 <= i < |ss|
      ensures r[i] == ss[i]
    {
      forall j | 0 <= j < |ss[i].lines|
        ensures r[i].lines[j] == ss[i].lines[j]
      {
        if ss[i].id == streamId && ss[i].lines[j].id == lineId {
          assert LineFields(r[i].lines[j]) == LineFields(ss[i].lines[j]);
        }
      }
      assert r[i].lines == ss[i].lines;
    }
  }

  /** Editing every matching stream with the fields it already has changes nothing. */
  lemma EditStreamNoChange(ss: seq<Stream>, streamId: string, f: Fields)
    requires forall i :: 0 <= i < |ss| && ss[i].id == streamId ==> StreamFields(ss[i]) == f
    ensures EditStream(ss, streamId, f) == ss
  {
  }

  /** Adding a line whose id the matching streams do not use, then removing
      that id from them, gives the original list back. */
  lemma AddThenRemoveLine(ss: seq<Stream>, streamId: string, l: Line)
    requires forall i :: 0 <= i < |ss| && ss[i].id == streamId ==> Occurrences(ss[i].lines, l.id) == 0
    ensures RemoveLine(AddLine(ss, streamId, l), streamId, l.id) == ss
  {
    var added := AddLine(ss, streamId, l);
    var r := RemoveLine(added, streamId, l.id);
    forall i | 0 <= i < |ss|
      ensures r[i] == ss[i]
    {
      if ss[i].id == streamId {
        assert added[i].lines == ss[i].lines + [l];
        AppendThenRemove(ss[i].lines, l);
      }
    }
  }

  /** A confirmed removal shortens each matching stream by exactly the number
      of its lines that carry `lineId`. */
  lemma RemoveLineCounts(ss: seq<Stream>, streamId: string, lineId: string)
    ensures forall i :: 0 <= i < |ss| && ss[i].id == streamId ==>
              |RemoveLine(ss, streamId, lineId)[i].lines| + Occurrences(ss[i].lines, lineId) == |ss[i].lines|
  {
    forall i | 0 <= i < |ss| && ss[i].id == streamId {
      RemoveLinesCount(ss[i].lines, lineId);
    }
  }

  // ----- Well-formedness is kept -----

  /** Two lists with the same stream ids and the same line ids in the same
      places are well formed together. */
  lemma SameIdsWellFormed(a: seq<Stream>, b: seq<Stream>)
    requires WellFormed(a)
    requires |a| == |b|
    requires forall i :: 0 <= i < |a| ==> a[i].id == b[i].id && |a[i].lines| == |b[i].lines|
    requires forall i, j :: 0 <= i < |a| && 0 <= j < |a[i].lines| ==> a[i].lines[j].id == b[i].lines[j].id
    ensures WellFormed(b)
  {
    forall i | 0 <= i < |b|
      ensures LinesWellFormed(b[i].lines)
    {
      assert LinesWellFormed(a[i].lines);
    }
  }

  lemma SetStreamActiveWellFormed(ss: seq<Stream>, streamId: string, active: bool)
    requires WellFormed(ss)
    ensures WellFormed(SetStreamActive(ss, streamId, active))
  {
    var r := SetStreamActive(ss, streamId, active);
    assert forall i :: 0 <= i < |ss| ==> r[i].id == ss[i].id && r[i].lines == ss[i].lines;
    SameIdsWellFormed(ss, r);
  }

  lemma SetLineActiveWellFormed(ss: seq<Stream>, streamId: string, lineId: string, active: bool)
    requires WellFormed(ss)
    ensures WellFormed(SetLineActive(ss, streamId, lineId, active))
  {
    var r := SetLineActive(ss, streamId, lineId, active);
    assert forall i, j :: 0 <= i < |ss| && 0 <= j < |ss[i].lines| ==> r[i].lines[j].id == ss[i].lines[j].id;
    SameIdsWellFormed(ss, r);
  }

  lemma EditLineWellFormed(ss: seq<Stream>, streamId: string, lineId: string, f: Fields)
    requires WellFormed(ss)
    ensures WellFormed(EditLine(ss, streamId, lineId, f))
  {
    SameIdsWellFormed(ss, EditLine(ss, streamId, lineId, f));
  }

  lemma EditStreamWellFormed(ss: seq<Stream>, streamId: string, f: Fields)
    requires WellFormed(ss)
    ensures WellFormed(EditStream(ss, streamId, f))
  {
    SameIdsWellFormed(ss, EditStream(ss, streamId, f));
  }

  lemma RemoveLineWellFormed(ss: seq<Stream>, streamId: string, lineId: string)
    requires WellFormed(ss)
    ensures WellFormed(RemoveLine(ss, streamId, lineId))
  {
    var r := RemoveLine(ss, streamId, lineId);
    forall i | 0 <= i < |r|
      ensures LinesWellFormed(r[i].lines)
    {
      if ss[i].id == streamId {
        RemoveLinesWellFormed(ss[i].lines, lineId);
      }
    }
  }

  lemma AddLineWellFormed(ss: seq<Stream>, streamId: string, l: Line)
    requires WellFormed(ss)
    requires l.id != "" && LineIdUnused(ss, l.id)
    ensures WellFormed(AddLine(ss, streamId, l))
  {
    var r := AddLine(ss, streamId, l);
    forall i | 0 <= i < |r|
      ensures LinesWellFormed(r[i].lines)
    {
      if ss[i].id == streamId {
        assert r[i].lines == ss[i].lines + [l];
        AppendWellFormed(ss[i].lines, l);
      }
    }
  }

  lemma AddStreamWellFormed(ss: seq<Stream>, id: string, f: Fields)
    requires WellFormed(ss)
    requires id != "" && StreamIdUnused(ss, id)
    ensures WellFormed(AddStream(ss, id, f))
  {
  }

  /** In a well-formed list, the stream `FindStream` returns is the only one
      with that id. */
  lemma FindStreamUnique(ss: seq<Stream>, streamId: string)
    requires WellFormed(ss)
    requires FindStream(ss, streamId).Some?
    ensures forall i :: 0 <= i < |ss| && ss[i].id == streamId ==> ss[i] == FindStream(ss, streamId).value
  {
  }

  /** In a well-formed line list, the line `FindLine` returns is the only
      one with that id. */
  lemma FindLineUnique(ls: seq<Line>, lineId: string)
    requires LinesWellFormed(ls)
    requires FindLine(ls, lineId).Some?
    ensures forall j :: 0 <= j < |ls| && ls[j].id == lineId ==> ls[j] == FindLine(ls, lineId).value
  {
  }
}
