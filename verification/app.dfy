/** The root component's state and the event handlers that change it. A
    deactivation or a deletion does not touch the streams: it parks an
    `Action` in the confirm dialog, applied by "Confirmar" and dropped by
    "Cancelar". */
module App {
  import opened Wrappers
  import opened Records
  import opened LineUpdates
  import opened StreamUpdates

  /** What the confirm dialog's `onConfirm` callback will do. */
  datatype Action =
    | DeactivateStream(streamId: string)
    | DeactivateLine(streamId: string, lineId: string)
    | DeleteLine(streamId: string, lineId: string)

  /** Runs an `onConfirm` callback against the streams current at confirm
      time (the callbacks use functional updates). No callback adds or
      drops a stream, nor renames one. */
  function Apply(a: Action, ss: seq<Stream>): (r: seq<Stream>)
    ensures |r| == |ss|
    ensures forall i :: 0 <= i < |ss| ==> r[i].id == ss[i].id
  {
    match a
    case DeactivateStream(sid) => SetStreamActive(ss, sid, false)
    case DeactivateLine(sid, lid) => SetLineActive(ss, sid, lid, false)
    case DeleteLine(sid, lid) => RemoveLine(ss, sid, lid)
  }

  /** The production-line modal and the context its save handler reads:
      `isModalOpen`, `currentStreamId`, `currentLineId`, `isEditing`,
      `modalInitialData`. */
  datatype LineModal = LineModal(isOpen: bool, currentStreamId: Option<string>,
                                 currentLineId: Option<string>, isEditing: bool,
                                 initialData: Option<Fields>)

  /** The value-stream modal: `isValueStreamModalOpen`, `currentValueStreamId`,
      `isEditingValueStream`, `valueStreamModalInitialData`. */
  datatype StreamModal = StreamModal(isOpen: bool, currentStreamId: Option<string>,
                                     isEditing: bool, initialData: Option<Fields>)

  /** `pending` is the confirm dialog: None when it is closed, the action its
      "Confirmar" button runs when it is open. */
  datatype State = State(streams: seq<Stream>, collapsed: set<string>, pending: Option<Action>,
                         lineModal: LineModal, streamModal: StreamModal)

  /** The two value streams the screen starts with. */
  const SeedStreams: seq<Stream> := [
    Stream("1", "ENT", "ENT", "ENT", true, [
      Line("1-1", "Línea A", "Línea principal ENT", "ENT-A", true),
      Line("1-2", "Línea B", "Línea secundaria ENT", "ENT-B", false)
    ]),
    Stream("2", "Fixation", "Fixation", "Fixation", true, [
      Line("2-1", "Línea Principal", "Línea única de Fixation", "FIX-1", true)
    ])
  ]

  /** The state on first render: the seeded streams, nothing collapsed, no
      dialog and no modal open. */
  function Initial(): (s: State)
    ensures WellFormed(s.streams) && |s.streams| == 2
    ensures s.collapsed == {} && s.pending.None? && !s.lineModal.isOpen && !s.streamModal.isOpen
  {
    State(SeedStreams, {}, None,
          LineModal(false, None, None, false, None),
          StreamModal(false, None, false, None))
  }

  /** `toggleSection`: flips the membership of exactly `streamId` in the
      collapsed set and changes nothing else. */
  function ToggleSection(s: State, streamId: string): (r: State)
    ensures r == s.(collapsed := r.collapsed)
    ensures streamId in r.collapsed <==> streamId !in s.collapsed
    ensures forall id :: id != streamId ==> (id in r.collapsed <==> id in s.collapsed)
  {
    if streamId in s.collapsed then s.(collapsed := s.collapsed - {streamId})
    else s.(collapsed := s.collapsed + {streamId})
  }

  /** `handleToggleValueStream(streamId, currentStatus)`, with `currentStatus`
      as the render passed it. Deactivation only opens the dialog;
      activation happens at once, on every stream with `streamId`. */
  function ToggleValueStream(s: State, streamId: string, currentStatus: bool): (r: State)
    ensures currentStatus ==> r.streams == s.streams && r.pending == Some(DeactivateStream(streamId))
    ensures r == s.(streams := r.streams, pending := r.pending)
    ensures !currentStatus ==> r.pending == s.pending && |r.streams| == |s.streams|
    ensures !currentStatus ==> forall i :: 0 <= i < |s.streams| ==>
              r.streams[i] == (if s.streams[i].id == streamId then s.streams[i].(isActive := true) else s.streams[i])
  {
    if currentStatus then s.(pending := Some(DeactivateStream(streamId)))
    else s.(streams := SetStreamActive(s.streams, streamId, true))
  }

  /** `handleToggleProductionLine(streamId, lineId, currentStatus)`: the same
      split as for streams, one level down. */
  function ToggleProductionLine(s: State, streamId: string, lineId: string, currentStatus: bool): (r: State)
    ensures currentStatus ==> r.streams == s.streams && r.pending == Some(DeactivateLine(streamId, lineId))
    ensures r == s.(streams := r.streams, pending := r.pending)
    ensures !currentStatus ==> r.pending == s.pending && |r.streams| == |s.streams|
    ensures !currentStatus ==> forall i :: 0 <= i < |s.streams| ==>
              r.streams[i] == s.streams[i].(lines := r.streams[i].lines) && |r.streams[i].lines| == |s.streams[i].lines|
    ensures !currentStatus ==> forall i, j :: 0 <= i < |s.streams| && 0 <= j < |s.streams[i].lines| ==>
              r.streams[i].lines[j] ==
                (if s.streams[i].id == streamId && s.streams[i].lines[j].id == lineId
                 then s.streams[i].lines[j].(isActive := true) else s.streams[i].lines[j])
  {
    if currentStatus then s.(pending := Some(DeactivateLine(streamId, lineId)))
    else s.(streams := SetLineActive(s.streams, streamId, lineId, true))
  }

  /** `removeProductionLine`: asks for confirmation; the streams are untouched. */
  function RemoveProductionLine(s: State, streamId: string, lineId: string): (r: State)
    ensures r.streams == s.streams && r.pending == Some(DeleteLine(streamId, lineId))
    ensures r == s.(pending := r.pending)
  {
    s.(pending := Some(DeleteLine(streamId, lineId)))
  }

  /** "Confirmar": runs the pending action once, then closes the dialog. */
  function Confirm(s: State): (r: State)
    ensures r.pending.None?
    ensures s.pending.None? ==> r == s
    ensures s.pending.Some? ==> r == s.(streams := Apply(s.pending.value, s.streams), pending := None)
  {
    match s.pending
    case None => s
    case Some(a) => s.(streams := Apply(a, s.streams), pending := None)
  }

  /** "Cancelar": closes the dialog and drops its action. */
  function Cancel(s: State): (r: State)
    ensures r.pending.None? && r.streams == s.streams
    ensures r == s.(pending := None)
  {
    s.(pending := None)
  }

  /** `handleAddProductionLine`: opens the line modal in add mode for
      `streamId`, with a blank form. */
  function AddProductionLine(s: State, streamId: string): (r: State)
    ensures r == s.(lineModal := r.lineModal)
    ensures r.lineModal.isOpen && !r.lineModal.isEditing
    ensures r.lineModal.currentStreamId == Some(streamId) && r.lineModal.currentLineId.None?
    ensures InitialForm(r.lineModal.initialData) == EmptyForm
  {
    s.(lineModal := LineModal(true, Some(streamId), None, false, None))
  }

  /** `handleEditProductionLine`: looks only at the first stream with
      `streamId` and, in it, at the first line with `lineId`. When both
      exist it opens the line modal in edit mode prefilled with that line's
      four fields; when either is missing it does nothing, even if a later
      stream with the same id holds such a line. */
  function EditProductionLine(s: State, streamId: string, lineId: string): (r: State)
    ensures r == s.(lineModal := r.lineModal)
    ensures StreamIdUnused(s.streams, streamId) ==> r == s
    ensures forall i :: FirstStreamWith(s.streams, streamId, i) ==>
              && ((forall j :: 0 <= j < |s.streams[i].lines| ==> s.streams[i].lines[j].id != lineId) ==> r == s)
              && (forall j :: FirstLineWith(s.streams[i].lines, lineId, j) ==>
                    r.lineModal == LineModal(true, Some(streamId), Some(lineId), true,
                                             Some(LineFields(s.streams[i].lines[j]))))
  {
    match FindStream(s.streams, streamId)
    case None => s
    case Some(st) =>
      var i :| FirstStreamWith(s.streams, streamId, i) && s.streams[i] == st;
      FirstStreamUnique(s.streams, streamId, i);
      match FindLine(st.lines, lineId)
      case None => s
      case Some(l) =>
        var j :| FirstLineWith(st.lines, lineId, j) && st.lines[j] == l;
        FirstLineUnique(st.lines, lineId, j);
        s.(lineModal := LineModal(true, Some(streamId), Some(lineId), true, Some(LineFields(l))))
  }

  /** `handleSaveProductionLine(lineData)` with `Date.now()` given as
      `freshId`. An absent or empty current stream id makes it a no-op;
      edit mode with a non-empty current line id edits, anything else adds. */
  function SaveProductionLine(s: State, form: Fields, freshId: string): (r: State)
    ensures r == s.(streams := r.streams)
    ensures !Truthy(s.lineModal.currentStreamId) ==> r == s
    ensures Truthy(s.lineModal.currentStreamId) && s.lineModal.isEditing && Truthy(s.lineModal.currentLineId) ==>
              r.streams == EditLine(s.streams, s.lineModal.currentStreamId.value, s.lineModal.currentLineId.value, form)
    ensures Truthy(s.lineModal.currentStreamId) && !(s.lineModal.isEditing && Truthy(s.lineModal.currentLineId)) ==>
              r.streams == AddLine(s.streams, s.lineModal.currentStreamId.value, NewLine(freshId, form))
  {
    var m := s.lineModal;
    if !Truthy(m.currentStreamId) then s
    else if m.isEditing && Truthy(m.currentLineId) then
      s.(streams := EditLine(s.streams, m.currentStreamId.value, m.currentLineId.value, form))
    else
      s.(streams := AddLine(s.streams, m.currentStreamId.value, NewLine(freshId, form)))
  }

  /** The line modal's submit: `onSave(formData)` then `onClose()`. A closed
      modal renders no form, so there is nothing to submit. */
  function SubmitLineForm(s: State, form: Fields, freshId: string): (r: State)
    ensures !s.lineModal.isOpen ==> r == s
    ensures s.lineModal.isOpen ==> !r.lineModal.isOpen
    ensures s.lineModal.isOpen ==> r == SaveProductionLine(s, form, freshId).(lineModal := s.lineModal.(isOpen := false))
  {
    if !s.lineModal.isOpen then s
    else SaveProductionLine(s, form, freshId).(lineModal := s.lineModal.(isOpen := false))
  }

  /** The line modal's close button: hides the modal and keeps its context
      (current ids, mode, initial data) as it was. */
  function CloseLineModal(s: State): (r: State)
    ensures !r.lineModal.isOpen
    ensures r == s.(lineModal := r.lineModal)
    ensures r.lineModal.(isOpen := s.lineModal.isOpen) == s.lineModal
  {
    s.(lineModal := s.lineModal.(isOpen := false))
  }

  /** `handleAddValueStream`: opens the stream modal in add mode with a blank form. */
  function AddValueStream(s: State): (r: State)
    ensures r == s.(streamModal := r.streamModal)
    ensures r.streamModal.isOpen && !r.streamModal.isEditing && r.streamModal.currentStreamId.None?
    ensures InitialForm(r.streamModal.initialData) == EmptyForm
  {
    s.(streamModal := StreamModal(true, None, false, None))
  }

  /** `handleEditValueStream`: opens the stream modal in edit mode prefilled
      from the first stream with `streamId`; does nothing when there is none. */
  function EditValueStream(s: State, streamId: string): (r: State)
    ensures r == s.(streamModal := r.streamModal)
    ensures StreamIdUnused(s.streams, streamId) ==> r == s
    ensures forall i :: FirstStreamWith(s.streams, streamId, i) ==>
              r.streamModal == StreamModal(true, Some(streamId), true, Some(StreamFields(s.streams[i])))
  {
    match FindStream(s.streams, streamId)
    case None => s
    case Some(st) =>
      var i :| FirstStreamWith(s.streams, streamId, i) && s.streams[i] == st;
      FirstStreamUnique(s.streams, streamId, i);
      s.(streamModal := StreamModal(true, Some(streamId), true, Some(StreamFields(st))))
  }

  /** `handleSaveValueStream(streamData)` with `Date.now()` given as
      `freshId`: edit mode with a non-empty current id edits, anything else adds. */
  function SaveValueStream(s: State, form: Fields, freshId: string): (r: State)
    ensures r == s.(streams := r.streams)
    ensures s.streamModal.isEditing && Truthy(s.streamModal.currentStreamId) ==>
              r.streams == EditStream(s.streams, s.streamModal.currentStreamId.value, form)
    ensures !(s.streamModal.isEditing && Truthy(s.streamModal.currentStreamId)) ==>
              r.streams == AddStream(s.streams, freshId, form)
  {
    var m := s.streamModal;
    if m.isEditing && Truthy(m.currentStreamId) then
      s.(streams := EditStream(s.streams, m.currentStreamId.value, form))
    else
      s.(streams := AddStream(s.streams, freshId, form))
  }

  /** The stream modal's submit: `onSave(formData)` then `onClose()`. */
  function SubmitStreamForm(s: State, form: Fields, freshId: string): (r: State)
    ensures !s.streamModal.isOpen ==> r == s
    ensures s.streamModal.isOpen ==> !r.streamModal.isOpen
    ensures s.streamModal.isOpen ==>
              r == SaveValueStream(s, form, freshId).(streamModal := s.streamModal.(isOpen := false))
  {
    if !s.streamModal.isOpen then s
    else SaveValueStream(s, form, freshId).(streamModal := s.streamModal.(isOpen := false))
  }

  /** The stream modal's close button: hides the modal and keeps its context. */
  function CloseStreamModal(s: State): (r: State)
    ensures !r.streamModal.isOpen
    ensures r == s.(streamModal := r.streamModal)
    ensures r.streamModal.(isOpen := s.streamModal.isOpen) == s.streamModal
  {
    s.(streamModal := s.streamModal.(isOpen := false))
  }
}
