/** A session as a sequence of user events, each dispatched to its handler,
    and the id invariant such a session keeps when new ids are fresh. */
module Session {
  import opened Wrappers
  import opened Records
  import opened LineUpdates
  import opened StreamUpdates
  import App

  /** The clicks and submits the screen reacts to. `freshId` stands for the
      `Date.now()` string a save would read. */
  datatype Event =
    | ToggleSection(streamId: string)
    | ToggleStream(streamId: string, currentStatus: bool)
    | ToggleLine(streamId: string, lineId: string, currentStatus: bool)
    | RequestRemoveLine(streamId: string, lineId: string)
    | OpenAddLine(streamId: string)
    | OpenEditLine(streamId: string, lineId: string)
    | SubmitLine(form: Fields, freshId: string)
    | CloseLineModal
    | OpenAddStream
    | OpenEditStream(streamId: string)
    | SubmitStream(form: Fields, freshId: string)
    | CloseStreamModal
    | Confirm
    | Cancel

  /** Routes an event to its handler. Only the writing events change the
      streams, and no event drops or renames an existing stream. */
  function Step(s: App.State, e: Event): (r: App.State)
    ensures !WritesStreams(e) ==> r.streams == s.streams
    ensures |r.streams| >= |s.streams|
    ensures forall i :: 0 <= i < |s.streams| ==> r.streams[i].id == s.streams[i].id
  {
    match e
    case ToggleSection(sid) => App.ToggleSection(s, sid)
    case ToggleStream(sid, st) => App.ToggleValueStream(s, sid, st)
    case ToggleLine(sid, lid, st) => App.ToggleProductionLine(s, sid, lid, st)
    case RequestRemoveLine(sid, lid) => App.RemoveProductionLine(s, sid, lid)
    case OpenAddLine(sid) => App.AddProductionLine(s, sid)
    case OpenEditLine(sid, lid) => App.EditProductionLine(s, sid, lid)
    case SubmitLine(f, id) => App.SubmitLineForm(s, f, id)
    case CloseLineModal => App.CloseLineModal(s)
    case OpenAddStream => App.AddValueStream(s)
    case OpenEditStream(sid) => App.EditValueStream(s, sid)
    case SubmitStream(f, id) => App.SubmitStreamForm(s, f, id)
    case CloseStreamModal => App.CloseStreamModal(s)
    case Confirm => App.Confirm(s)
    case Cancel => App.Cancel(s)
  }

  /** The events that write to the streams at once: activations, submits
      and "Confirmar". Every other event leaves the streams alone. */
  predicate WritesStreams(e: Event) {
    || (e.ToggleStream? && !e.currentStatus)
    || (e.ToggleLine? && !e.currentStatus)
    || e.SubmitLine? || e.SubmitStream? || e.Confirm?
  }

  /** A non-empty `freshId` that no stream, resp. no line, already uses. */
  predicate FreshFor(s: App.State, e: Event) {
    match e
    case SubmitLine(_, id) => id != "" && LineIdUnused(s.streams, id)
    case SubmitStream(_, id) => id != "" && StreamIdUnused(s.streams, id)
    case _ => true
  }

  /** Every event keeps ids non-empty and unique, given fresh new ids. */
  lemma StepWellFormed(s: App.State, e: Event)
    requires WellFormed(s.streams) && FreshFor(s, e)
    ensures WellFormed(Step(s, e).streams)
  {
    match e
    case ToggleStream(sid, st) =>
      if !st { SetStreamActiveWellFormed(s.streams, sid, true); }
    case ToggleLine(sid, lid, st) =>
      if !st { SetLineActiveWellFormed(s.streams, sid, lid, true); }
    case SubmitLine(f, id) =>
      var m := s.lineModal;
      if m.isOpen && Truthy(m.currentStreamId) {
        if m.isEditing && Truthy(m.currentLineId) {
          EditLineWellFormed(s.streams, m.currentStreamId.value, m.currentLineId.value, f);
        } else {
          AddLineWellFormed(s.streams, m.currentStreamId.value, NewLine(id, f));
        }
      }
    case SubmitStream(f, id) =>
      var m := s.streamModal;
      if m.isOpen {
        if m.isEditing && Truthy(m.currentStreamId) {
          EditStreamWellFormed(s.streams, m.currentStreamId.value, f);
        } else {
          AddStreamWellFormed(s.streams, id, f);
        }
      }
    case Confirm =>
      if s.pending.Some? {
        match s.pending.value
        case DeactivateStream(sid) => SetStreamActiveWellFormed(s.streams, sid, false);
        case DeactivateLine(sid, lid) => SetLineActiveWellFormed(s.streams, sid, lid, false);
        case DeleteLine(sid, lid) => RemoveLineWellFormed(s.streams, sid, lid);
      }
    case _ =>
  }

  /** The state after a sequence of events. */
  function Run(s: App.State, es: seq<Event>): App.State
    decreases |es|
  {
    if es == [] then s else Run(Step(s, es[0]), es[1..])
  }

  /** Every new id in the session is fresh when it is used. */
  predicate AllFresh(s: App.State, es: seq<Event>)
    decreases |es|
  {
    es == [] || (FreshFor(s, es[0]) && AllFresh(Step(s, es[0]), es[1..]))
  }

  /** From the seeded screen, any session whose new ids are fresh keeps
      stream ids unique and each stream's line ids unique. */
  lemma {:induction false} RunWellFormed(s: App.State, es: seq<Event>)
    requires WellFormed(s.streams) && AllFresh(s, es)
    ensures WellFormed(Run(s, es).streams)
    decreases |es|
  {
    if es != [] {
      StepWellFormed(s, es[0]);
      RunWellFormed(Step(s, es[0]), es[1..]);
    }
  }

  lemma SessionWellFormed(es: seq<Event>)
    requires AllFresh(App.Initial(), es)
    ensures WellFormed(Run(App.Initial(), es).streams)
  {
    RunWellFormed(App.Initial(), es);
  }
}
