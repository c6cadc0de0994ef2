/** What a user sees across several handler calls: the confirm dialog's
    round trip, the modal open-then-save sequences, and the prefill rule. */
module Flows {
  import opened Wrappers
  import opened Records
  import opened LineUpdates
  import opened StreamUpdates
  import opened App

  /** Collapsing a section twice restores the collapsed set. */
  lemma ToggleSectionTwice(s: State, streamId: string)
    ensures ToggleSection(ToggleSection(s, streamId), streamId) == s
  {
  }

  /** A confirmed action runs once: a second "Confirmar" finds no dialog. */
  lemma ConfirmRunsOnce(s: State)
    ensures Confirm(Confirm(s)) == Confirm(s)
  {
  }

  /** "Cancelar" leaves the streams as they were, and a later "Confirmar"
      no longer runs the dropped action. */
  lemma CancelDropsAction(s: State)
    ensures Cancel(s).streams == s.streams && Cancel(s).pending.None?
    ensures Confirm(Cancel(s)) == Cancel(s)
  {
  }

  /** Deactivating an active stream: the click alone changes no stream;
      cancelling changes none; confirming turns off exactly the streams
      with `streamId` and touches no other field. */
  lemma DeactivateStreamFlow(s: State, streamId: string)
    ensures ToggleValueStream(s, streamId, true).streams == s.streams
    ensures Cancel(ToggleValueStream(s, streamId, true)).streams == s.streams
    ensures var r := Confirm(ToggleValueStream(s, streamId, true)).streams;
            && |r| == |s.streams|
            && forall i :: 0 <= i < |s.streams| ==>
                 r[i] == s.streams[i].(isActive := s.streams[i].isActive && s.streams[i].id != streamId)
  {
  }

  /** Switching a stream off with confirmation and back on without one
      restores the streams, when every stream with that id was active. */
  lemma DeactivateThenActivateStream(s: State, streamId: string)
    requires forall i :: 0 <= i < |s.streams| && s.streams[i].id == streamId ==> s.streams[i].isActive
    ensures ToggleValueStream(Confirm(ToggleValueStream(s, streamId, true)), streamId, false).streams == s.streams
  {
  }

  /** Deactivating an active line: the click alone changes no stream;
      confirming turns off exactly the lines with `lineId` in the streams
      with `streamId`, and every line count stays the same. */
  lemma DeactivateLineFlow(s: State, streamId: string, lineId: string)
    ensures ToggleProductionLine(s, streamId, lineId, true).streams == s.streams
    ensures Cancel(ToggleProductionLine(s, streamId, lineId, true)).streams == s.streams
    ensures var r := Confirm(ToggleProductionLine(s, streamId, lineId, true)).streams;
            && |r| == |s.streams|
            && (forall i :: 0 <= i < |s.streams| ==>
                  r[i] == s.streams[i].(lines := r[i].lines) && |r[i].lines| == |s.streams[i].lines|)
            && forall i, j :: 0 <= i < |s.streams| && 0 <= j < |s.streams[i].lines| ==>
                 r[i].lines[j] == s.streams[i].lines[j].(isActive :=
                   s.streams[i].lines[j].isActive && !(s.streams[i].id == streamId && s.streams[i].lines[j].id == lineId))
  {
  }

  /** Deleting a line: the click alone changes no stream; confirming removes
      exactly the lines with `lineId` from the streams with `streamId`,
      keeps every other line and every other stream, and keeps the number
      of streams. */
  lemma RemoveLineFlow(s: State, streamId: string, lineId: string)
    ensures RemoveProductionLine(s, streamId, lineId).streams == s.streams
    ensures Cancel(RemoveProductionLine(s, streamId, lineId)).streams == s.streams
    ensures var r := Confirm(RemoveProductionLine(s, streamId, lineId)).streams;
            && |r| == |s.streams|
            && (forall i :: 0 <= i < |s.streams| && s.streams[i].id != streamId ==> r[i] == s.streams[i])
            && (forall i :: 0 <= i < |s.streams| && s.streams[i].id == streamId ==>
                  r[i] == s.streams[i].(lines := r[i].lines)
                  && |r[i].lines| + Occurrences(s.streams[i].lines, lineId) == |s.streams[i].lines|
                  && (forall k :: 0 <= k < |r[i].lines| ==> r[i].lines[k].id != lineId)
                  && (forall k :: 0 <= k < |s.streams[i].lines| && s.streams[i].lines[k].id != lineId ==>
                        s.streams[i].lines[k] in r[i].lines))
  {
    var r := Confirm(RemoveProductionLine(s, streamId, lineId)).streams;
    assert r == RemoveLine(s.streams, streamId, lineId);
    RemoveLineCounts(s.streams, streamId, lineId);
  }

  /** Adding a line: opening the add form for a stream with a non-empty id
      and saving appends exactly one line, made of the form fields and the
      fresh id, to each stream with that id, and closes the modal. */
  lemma AddLineFlow(s: State, streamId: string, form: Fields, freshId: string)
    requires streamId != ""
    ensures var r := SubmitLineForm(AddProductionLine(s, streamId), form, freshId);
            && !r.lineModal.isOpen
            && r.streams == AddLine(s.streams, streamId, NewLine(freshId, form))
  {
  }

  /** With no current stream id, or an empty one, saving the line form
      changes no stream. */
  lemma SaveLineWithoutStreamIsNoOp(s: State, form: Fields, freshId: string)
    requires !Truthy(s.lineModal.currentStreamId)
    ensures SubmitLineForm(s, form, freshId).streams == s.streams
  {
  }

  /** Opening the edit form on an existing line of a well-formed list and
      saving it: the line takes the submitted fields and keeps its id; the
      modal closes. */
  lemma EditLineFlow(s: State, streamId: string, lineId: string, form: Fields, freshId: string)
    requires WellFormed(s.streams)
    requires exists i, j :: 0 <= i < |s.streams| && 0 <= j < |s.streams[i].lines|
               && s.streams[i].id == streamId && s.streams[i].lines[j].id == lineId
    ensures var r := SubmitLineForm(EditProductionLine(s, streamId, lineId), form, freshId);
            && !r.lineModal.isOpen
            && r.streams == EditLine(s.streams, streamId, lineId, form)
  {
    var i, j :| 0 <= i < |s.streams| && 0 <= j < |s.streams[i].lines|
               && s.streams[i].id == streamId && s.streams[i].lines[j].id == lineId;
    OpenEditLine(s, i, j);
  }

  /** Under well-formedness the edit handler finds the line and opens the
      modal prefilled from it. */
  lemma OpenEditLine(s: State, i: int, j: int)
    requires WellFormed(s.streams)
    requires 0 <= i < |s.streams| && 0 <= j < |s.streams[i].lines|
    ensures var r := EditProductionLine(s, s.streams[i].id, s.streams[i].lines[j].id);
            && r.lineModal == LineModal(true, Some(s.streams[i].id), Some(s.streams[i].lines[j].id), true,
                                        Some(LineFields(s.streams[i].lines[j])))
            && Truthy(r.lineModal.currentStreamId) && Truthy(r.lineModal.currentLineId)
  {
    var ls := s.streams[i].lines;
    assert FirstStreamWith(s.streams, s.streams[i].id, i);
    assert LinesWellFormed(ls);
    assert FirstLineWith(ls, ls[j].id, j);
  }

  /** The prefill rule: opening the edit form on a line of a well-formed
      list and saving the form unmodified leaves the streams unchanged. */
  lemma EditLineUnmodifiedIsNoOp(s: State, streamId: string, lineId: string, freshId: string)
    requires WellFormed(s.streams)
    requires exists i, j :: 0 <= i < |s.streams| && 0 <= j < |s.streams[i].lines|
               && s.streams[i].id == streamId && s.streams[i].lines[j].id == lineId
    ensures var shown := EditProductionLine(s, streamId, lineId);
            SubmitLineForm(shown, InitialForm(shown.lineModal.initialData), freshId).streams == s.streams
  {
    var i, j :| 0 <= i < |s.streams| && 0 <= j < |s.streams[i].lines|
               && s.streams[i].id == streamId && s.streams[i].lines[j].id == lineId;
    OpenEditLine(s, i, j);
    var f := LineFields(s.streams[i].lines[j]);
    var shown := EditProductionLine(s, streamId, lineId);
    assert shown.streams == s.streams;
    assert InitialForm(shown.lineModal.initialData) == f;
    assert SubmitLineForm(shown, f, freshId).streams == EditLine(s.streams, streamId, lineId, f);
    OnlyLineWithIds(s.streams, i, j);
    EditLineNoChange(s.streams, streamId, lineId, f);
  }

  /** In a well-formed list, stream `i` and its line `j` are the only
      stream and line carrying their ids. */
  lemma OnlyLineWithIds(ss: seq<Stream>, i: int, j: int)
    requires WellFormed(ss)
    requires 0 <= i < |ss| && 0 <= j < |ss[i].lines|
    ensures forall i', j' :: 0 <= i' < |ss| && 0 <= j' < |ss[i'].lines| && ss[i'].id == ss[i].id && ss[i'].lines[j'].id == ss[i].lines[j].id
              ==> ss[i'].lines[j'] == ss[i].lines[j]
  {
    forall i', j' | 0 <= i' < |ss| && 0 <= j' < |ss[i'].lines| && ss[i'].id == ss[i].id
                    && ss[i'].lines[j'].id == ss[i].lines[j].id
      ensures ss[i'].lines[j'] == ss[i].lines[j]
    {
      assert i' == i;
      assert LinesWellFormed(ss[i].lines);
    }
  }

  /** Unique ids are needed for the prefill rule. With two streams sharing
      an id, the edit form is prefilled from the first stream's line, and
      saving it unmodified copies that line's fields over the same-id line
      of the second stream. */
  lemma DuplicateStreamIdsUnmodifiedEditOverwrites()
    ensures var shown := EditProductionLine(TwoStreamsSharingAnId, "x", "a");
            var r := SubmitLineForm(shown, InitialForm(shown.lineModal.initialData), "t");
            && |r.streams| == 2 && |r.streams[1].lines| == 1
            && r.streams[1].lines[0].name == "p" && TwoStreamsSharingAnId.streams[1].lines[0].name == "q"
  {
    DuplicateIdsOpenFirstLine();
    DuplicateIdsSubmitEdits(EditProductionLine(TwoStreamsSharingAnId, "x", "a"), Fields("p", "", "", true), "t");
    DuplicateIdsSaveCopiesFirstLine();
  }

  /** Submitting an open edit form on the shared ids edits the lines. */
  lemma DuplicateIdsSubmitEdits(s: State, f: Fields, freshId: string)
    requires s.lineModal == LineModal(true, Some("x"), Some("a"), true, Some(f))
    ensures InitialForm(s.lineModal.initialData) == f
    ensures SubmitLineForm(s, f, freshId).streams == EditLine(s.streams, "x", "a", f)
  {
  }

  /** Opening the edit form on the shared ids prefills it from the first
      stream's line. */
  lemma DuplicateIdsOpenFirstLine()
    ensures EditProductionLine(TwoStreamsSharingAnId, "x", "a")
         == TwoStreamsSharingAnId.(lineModal := LineModal(true, Some("x"), Some("a"), true, Some(Fields("p", "", "", true))))
  {
    var s := TwoStreamsSharingAnId;
    assert FirstStreamWith(s.streams, "x", 0);
    assert FirstLineWith(s.streams[0].lines, "a", 0);
  }

  /** Saving the first line's fields on the shared ids rewrites the line of
      both streams. */
  lemma DuplicateIdsSaveCopiesFirstLine()
    ensures var r := EditLine(TwoStreamsSharingAnId.streams, "x", "a", Fields("p", "", "", true));
            |r| == 2 && |r[1].lines| == 1 && r[1].lines[0].name == "p"
  {
    var r := EditLine(TwoStreamsSharingAnId.streams, "x", "a", Fields("p", "", "", true));
    assert LineFields(r[1].lines[0]) == Fields("p", "", "", true);
  }

  /** Two streams with id "x", each holding a line with id "a". */
  const TwoStreamsSharingAnId: State :=
    State([Stream("x", "", "", "", true, [Line("a", "p", "", "", true)]),
           Stream("x", "", "", "", true, [Line("a", "q", "", "", true)])],
          {}, None, LineModal(false, None, None, false, None), StreamModal(false, None, false, None))

  /** Adding a stream: opening the add form and saving appends exactly one
      stream, made of the form fields, the fresh id and no lines. */
  lemma AddStreamFlow(s: State, form: Fields, freshId: string)
    ensures var r := SubmitStreamForm(AddValueStream(s), form, freshId);
            && !r.streamModal.isOpen
            && |r.streams| == |s.streams| + 1 && r.streams[..|s.streams|] == s.streams
            && r.streams[|s.streams|] == Stream(freshId, form.name, form.description, form.code, form.isActive, [])
  {
  }

  /** Editing a stream of a well-formed list: the stream takes the submitted
      fields and keeps its id and production lines. */
  lemma EditStreamFlow(s: State, i: int, form: Fields, freshId: string)
    requires WellFormed(s.streams)
    requires 0 <= i < |s.streams|
    ensures var r := SubmitStreamForm(EditValueStream(s, s.streams[i].id), form, freshId);
            && !r.streamModal.isOpen
            && r.streams == EditStream(s.streams, s.streams[i].id, form)
  {
  }

  /** The prefill rule for streams: opening the edit form on a stream of a
      well-formed list and saving the form unmodified leaves the streams
      unchanged. */
  lemma EditStreamUnmodifiedIsNoOp(s: State, i: int, freshId: string)
    requires WellFormed(s.streams)
    requires 0 <= i < |s.streams|
    ensures var shown := EditValueStream(s, s.streams[i].id);
            SubmitStreamForm(shown, InitialForm(shown.streamModal.initialData), freshId).streams == s.streams
  {
  }

  /** The id check is a truthiness test: editing a stream whose id is the
      empty string and saving appends a new stream instead of editing it. */
  lemma EmptyIdEditAppendsStream(s: State, i: int, form: Fields, freshId: string)
    requires 0 <= i < |s.streams| && s.streams[i].id == ""
    ensures var r := SubmitStreamForm(EditValueStream(s, ""), form, freshId);
            |r.streams| == |s.streams| + 1 && r.streams[..|s.streams|] == s.streams
  {
  }
}
