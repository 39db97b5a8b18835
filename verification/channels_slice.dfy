/** The `channels` slice of the editor front end (channelsSlice.ts): a list of
    channels, each holding a list of notes, and the id of the selected note.
    The two reducers are modelled as pure functions from state to state; the
    in-place draft updates of the slice library become record updates. */
module ChannelsSlice {
  import opened Options

  /** A note of a channel; pitch in Hz, start time and duration in seconds or
      beats, velocity optional. */
  datatype Note = Note(id: string, pitch: real, startTime: real, duration: real, velocity: Option<real>)

  datatype Channel = Channel(id: string, name: string, volume: real, notes: seq<Note>)

  /** `selectedNoteId` is `string | null`. */
  datatype ChannelsState = ChannelsState(channels: seq<Channel>, selectedNoteId: Option<string>)

  /** The payloads of the two reducers. */
  datatype Action =
    | AddNoteAction(channelId: string, note: Note)
    | SelectNoteAction(noteId: string)

  // ---------------------------------------------------------------------------
  // Initial state

  /** The two dummy channels the slice starts with. */
  const InitialChannels: seq<Channel> := [
    Channel("channel-1", "Piano", 0.8, [
      Note("note-1", 440.0, 0.0, 1.0, None),
      Note("note-2", 494.0, 1.5, 0.5, None)
    ]),
    Channel("channel-2", "Synth", 0.6, [
      Note("note-3", 330.0, 0.4, 2.0, None)
    ])
  ]

  const InitialState: ChannelsState := ChannelsState(InitialChannels, None)

  // ---------------------------------------------------------------------------
  // Predicates

  /** `i` is the index of the first channel whose id is `id`. */
  predicate FirstWithId(cs: seq<Channel>, id: string, i: int)
  {
    0 <= i < |cs| && cs[i].id == id && forall j :: 0 <= j < i ==> cs[j].id != id
  }

  /** No channel has id `id`. */
  predicate NoneWithId(cs: seq<Channel>, id: string)
  {
    forall j :: 0 <= j < |cs| ==> cs[j].id != id
  }

  /** No two channels share an id. */
  predicate DistinctIds(cs: seq<Channel>)
  {
    forall i, j :: 0 <= i < j < |cs| ==> cs[i].id != cs[j].id
  }

  /** Two channels agree on everything but their notes. */
  predicate SameHeader(a: Channel, b: Channel)
  {
    a.id == b.id && a.name == b.name && a.volume == b.volume
  }

  /** Two channel lists have the same length and agree channel by channel on
      everything but the notes. */
  predicate SameLayout(cs: seq<Channel>, ds: seq<Channel>)
  {
    |cs| == |ds| && forall j :: 0 <= j < |cs| ==> SameHeader(cs[j], ds[j])
  }

  /** The number of notes over all channels. */
  function NoteCount(cs: seq<Channel>): nat
  {
    if |cs| == 0 then 0 else |cs[0].notes| + NoteCount(cs[1..])
  }

  // ---------------------------------------------------------------------------
  // Reducers

  /** `channels.find(c => c.id === channelId)`, as the index of the match:
      the first channel with that id, or none. */
  function FindChannel(cs: seq<Channel>, id: string): (r: Option<nat>)
    ensures r.Some? ==> FirstWithId(cs, id, r.value)
    ensures r.None? ==> NoneWithId(cs, id)
  {
    if |cs| == 0 then None
    else if cs[0].id == id then Some(0)
    else
      match FindChannel(cs[1..], id)
      case None => None
      case Some(j) => Some(j + 1)
  }

  /** `addNote`: append `note` to the notes of the first channel whose id is
      `channelId`; with no such channel, nothing changes. */
  function AddNote(s: ChannelsState, channelId: string, note: Note): (r: ChannelsState)
    ensures r.selectedNoteId == s.selectedNoteId
    ensures SameLayout(r.channels, s.channels)
    ensures forall i :: FirstWithId(s.channels, channelId, i) ==>
      && r.channels[i].notes == s.channels[i].notes + [note]
      && forall j :: 0 <= j < |s.channels| && j != i ==> r.channels[j] == s.channels[j]
    ensures NoneWithId(s.channels, channelId) ==> r == s
  {
    match FindChannel(s.channels, channelId)
    case None => s
    case Some(i) =>
      var c := s.channels[i];
      s.(channels := s.channels[i := c.(notes := c.notes + [note])])
  }

  /** `selectNote`: the selected note becomes `noteId`; the channels stay. */
  function SelectNote(s: ChannelsState, noteId: string): (r: ChannelsState)
    ensures r.selectedNoteId == Some(noteId)
    ensures r.channels == s.channels
  {
    s.(selectedNoteId := Some(noteId))
  }

  /** The slice's reducer: dispatches each action to its case reducer. No
      action changes the channel layout; only `selectNote` changes the
      selection, and only `addNote` changes notes. */
  function Reduce(s: ChannelsState, a: Action): (r: ChannelsState)
    ensures SameLayout(r.channels, s.channels)
    ensures a.SelectNoteAction? ==> r.selectedNoteId == Some(a.noteId) && r.channels == s.channels
    ensures a.AddNoteAction? ==> r.selectedNoteId == s.selectedNoteId
    ensures a.AddNoteAction? && NoneWithId(s.channels, a.channelId) ==> r == s
  {
    match a
    case AddNoteAction(channelId, note) => AddNote(s, channelId, note)
    case SelectNoteAction(noteId) => SelectNote(s, noteId)
  }

  /** The state after dispatching `actions` in order. */
  function ReduceAll(s: ChannelsState, actions: seq<Action>): ChannelsState
    decreases |actions|
  {
    if |actions| == 0 then s else ReduceAll(Reduce(s, actions[0]), actions[1..])
  }

  // ---------------------------------------------------------------------------
  // Properties

  /** The initial state selects nothing and holds two channels with distinct
      ids. */
  lemma InitialStateShape()
    ensures InitialState.selectedNoteId == None
    ensures |InitialState.channels| == 2
    ensures DistinctIds(InitialState.channels)
    ensures NoteCount(InitialState.channels) == 3
  {
  }

  /** Selecting the same note twice is selecting it once. */
  lemma SelectNoteIdempotent(s: ChannelsState, x: string)
    ensures SelectNote(SelectNote(s, x), x) == SelectNote(s, x)
  {
  }

  /** Adding a note and selecting a note touch disjoint parts of the state,
      so they commute. */
  lemma AddNoteSelectNoteCommute(s: ChannelsState, channelId: string, note: Note, x: string)
    ensures AddNote(SelectNote(s, x), channelId, note) == SelectNote(AddNote(s, channelId, note), x)
  {
  }

  /** Replacing one channel changes the note count by the difference of
      that channel's note counts. */
  lemma {:induction false} NoteCountUpdate(cs: seq<Channel>, i: nat, c: Channel)
    requires i < |cs|
    ensures NoteCount(cs[i := c]) + |cs[i].notes| == NoteCount(cs) + |c.notes|
  {
    if i > 0 {
      assert cs[i := c][1..] == cs[1..][i - 1 := c];
      NoteCountUpdate(cs[1..], i - 1, c);
    }
  }

  /** `addNote` adds exactly one note to the whole state when the channel
      exists and none when it does not. */
  lemma AddNoteCount(s: ChannelsState, channelId: string, note: Note)
    ensures NoteCount(AddNote(s, channelId, note).channels)
      == NoteCount(s.channels) + (if NoneWithId(s.channels, channelId) then 0 else 1)
  {
    match FindChannel(s.channels, channelId)
    case None =>
    case Some(i) =>
      var c := s.channels[i];
      NoteCountUpdate(s.channels, i, c.(notes := c.notes + [note]));
  }

  /** With distinct ids, `addNote` on a present id appends to exactly the
      channel carrying that id. */
  lemma AddNoteDistinct(s: ChannelsState, channelId: string, note: Note, i: nat)
    requires DistinctIds(s.channels)
    requires i < |s.channels| && s.channels[i].id == channelId
    ensures AddNote(s, channelId, note).channels[i].notes == s.channels[i].notes + [note]
  {
    assert FirstWithId(s.channels, channelId, i);
  }

  /** No sequence of actions changes the number, order, ids, names or
      volumes of the channels. */
  lemma {:induction false} ReduceAllKeepsLayout(s: ChannelsState, actions: seq<Action>)
    ensures SameLayout(ReduceAll(s, actions).channels, s.channels)
    decreases |actions|
  {
    if |actions| > 0 {
      var t := Reduce(s, actions[0]);
      assert SameLayout(t.channels, s.channels);
      ReduceAllKeepsLayout(t, actions[1..]);
    }
  }

  /** Every reachable state has distinct channel ids, so `addNote` always
      targets the one channel with the given id. */
  lemma ReachableIdsDistinct(actions: seq<Action>)
    ensures DistinctIds(ReduceAll(InitialState, actions).channels)
  {
    ReduceAllKeepsLayout(InitialState, actions);
    InitialStateShape();
  }
}
