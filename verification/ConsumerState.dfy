/**
 The checkpoint of an event consumer (processing/consumers/state/base.py and memory.py): how a
 state is written to and read from its stream, and the store that decides when to write it.
 */
module ConsumerState {
  import opened Prelude
  import opened Events
  import opened Conditions

  datatype Json =
    | JsonNull
    | JsonBool(value: bool)
    | JsonInt(number: int)
    | JsonFloat(fraction: real)
    | JsonString(text: string)
    | JsonArray(items: seq<Json>)
    | JsonObject(fields: map<string, Json>)

  type EventConsumerState = map<string, Json>

  datatype StateError = CannotDeserialise

  const LAST := "last_sequence_number"

  function Field(fields: map<string, Json>, name: string): Json {
    if name in fields then fields[name] else JsonNull
  }

  /** Python counts booleans among the integers. */
  predicate IsInt(value: Json) {
    value.JsonInt? || value.JsonBool?
  }

  function Serialise(state: EventConsumerState): Json {
    JsonObject(map["state" := JsonObject(state)])
  }

  /** A bare last sequence number, as older records have it, goes into the state. */
  function Normalise(state: Json, lastSequenceNumber: Json): EventConsumerState
    requires state.JsonNull? || state.JsonObject?
  {
    var fields := if state.JsonObject? then state.fields else map[];
    if IsInt(lastSequenceNumber) then fields[LAST := lastSequenceNumber] else fields
  }

  function Deserialise(value: Json): Result<EventConsumerState, StateError> {
    if !value.JsonObject? then Failure(CannotDeserialise)
    else
      var state := Field(value.fields, "state");
      if !state.JsonNull? && !state.JsonObject? then Failure(CannotDeserialise)
      else Success(Normalise(state, Field(value.fields, LAST)))
  }

  /** Reading back what was written gives the state, whatever it holds. */
  lemma RoundTrip(state: EventConsumerState)
    ensures Deserialise(Serialise(state)) == Success(state)
  {
  }

  function EventToState(e: StoredEvent): EventConsumerState {
    map[LAST := JsonInt(e.sequenceNumber)]
  }

  /** The number to resume after, if the state names one. */
  function ResumeAfter(state: EventConsumerState): Option<int> {
    match Field(state, LAST)
    case JsonInt(n) => Some(n)
    case JsonBool(b) => Some(if b then 1 else 0)
    case _ => None
  }

  /** An old record, with or without a state, resumes after its bare number. */
  lemma BareNumberWins(fields: map<string, Json>, n: int)
    requires Field(fields, LAST) == JsonInt(n)
    requires Field(fields, "state").JsonNull? || Field(fields, "state").JsonObject?
    ensures Deserialise(JsonObject(fields)).Success?
    ensures ResumeAfter(Deserialise(JsonObject(fields)).value) == Some(n)
  {
  }

  /** Reading a record keeps every field of its state but the last sequence number, and adds none. */
  lemma OtherFieldsSurvive(fields: map<string, Json>, name: string)
    requires Deserialise(JsonObject(fields)).Success? && name != LAST
    ensures var state := Deserialise(JsonObject(fields)).value;
      if name in state then Field(fields, "state").JsonObject? && name in Field(fields, "state").fields
        && state[name] == Field(fields, "state").fields[name]
      else Field(fields, "state").JsonObject? ==> name !in Field(fields, "state").fields
  {
  }

  /** A record is refused unless it is an object whose state, if there is one, is an object or null. */
  lemma DeserialisesExactly(value: Json)
    ensures Deserialise(value).Success? <==>
      && value.JsonObject?
      && ("state" in value.fields ==> value.fields["state"].JsonObject? || value.fields["state"].JsonNull?)
  {
  }

  /** Without a bare number that is an integer, the last sequence number is kept as well. */
  lemma NumberSurvives(fields: map<string, Json>, state: map<string, Json>)
    requires Field(fields, "state") == JsonObject(state) && !IsInt(Field(fields, LAST))
    ensures Deserialise(JsonObject(fields)) == Success(state)
  {
  }

  // The store as a value: what it remembers per partition.

  datatype Tracker = Tracker(
    states: map<string, Option<EventConsumerState>>, positions: map<string, Option<int>>, lags: map<string, nat>)

  const FRESH_TRACKER := Tracker(map[], map[], map[])

  /** The streams of the category the states are written to, by partition; an event's position is its index. */
  type Streams = map<string, seq<Json>>

  function StateOf(t: Tracker, partition: string): Option<EventConsumerState> {
    if partition in t.states then t.states[partition] else None
  }

  function PositionOf(t: Tracker, partition: string): Option<int> {
    if partition in t.positions then t.positions[partition] else None
  }

  function LagOf(t: Tracker, partition: string): nat {
    if partition in t.lags then t.lags[partition] else 0
  }

  function StreamOf(streams: Streams, partition: string): seq<Json> {
    if partition in streams then streams[partition] else []
  }

  function TailPosition(streams: Streams, partition: string): Option<int> {
    var events := StreamOf(streams, partition);
    if events == [] then None else Some(|events| - 1)
  }

  function RecordedIn(t: Tracker, partition: string, state: EventConsumerState): Tracker {
    t.(states := t.states[partition := Some(state)], lags := t.lags[partition := LagOf(t, partition) + 1])
  }

  /** The position the next write expects the stream to end at. */
  function Expected(t: Tracker, streams: Streams, partition: string): Option<int> {
    if PositionOf(t, partition).Some? then PositionOf(t, partition) else TailPosition(streams, partition)
  }

  predicate Behind(t: Tracker, partition: string) {
    StateOf(t, partition).Some? && LagOf(t, partition) != 0
  }

  /** Writing the state of one partition, provided the stream still ends where expected. */
  function Saved(t: Tracker, streams: Streams, partition: string): (Tracker, Streams) {
    if Behind(t, partition) && Expected(t, streams, partition) == TailPosition(streams, partition) then
      var events := StreamOf(streams, partition);
      (t.(positions := t.positions[partition := Some(|events|)], lags := t.lags[partition := 0]),
       streams[partition := events + [Serialise(StateOf(t, partition).value)]])
    else (t, streams)
  }

  /** A write the stream's condition turns down. */
  predicate Refuses(t: Tracker, streams: Streams, partition: string) {
    Behind(t, partition) && Expected(t, streams, partition) != TailPosition(streams, partition)
  }

  predicate Writes(t: Tracker, streams: Streams, partition: string) {
    Behind(t, partition) && !Refuses(t, streams, partition)
  }

  function Writable(t: Tracker, streams: Streams, partitions: set<string>): set<string> {
    set partition | partition in partitions && Writes(t, streams, partition)
  }

  /** Writing the states of several partitions; each goes to a stream of its own, so their order leaves no trace. */
  function SavedOver(t: Tracker, streams: Streams, partitions: set<string>): (Tracker, Streams) {
    var writable := Writable(t, streams, partitions);
    (t.(positions := t.positions + PositionsAfter(streams, writable), lags := t.lags + NoLags(writable)),
     streams + Additions(t, streams, writable))
  }

  function PositionsAfter(streams: Streams, partitions: set<string>): map<string, Option<int>> {
    map partition | partition in partitions :: Some(|StreamOf(streams, partition)|)
  }

  function NoLags(partitions: set<string>): map<string, nat> {
    map partition | partition in partitions :: 0
  }

  function Additions(t: Tracker, streams: Streams, partitions: set<string>): Streams
    requires forall partition :: partition in partitions ==> StateOf(t, partition).Some?
  {
    map partition | partition in partitions ::
      StreamOf(streams, partition) + [Serialise(StateOf(t, partition).value)]
  }

  ghost predicate SameAt(t: Tracker, streams: Streams, t': Tracker, streams': Streams, partition: string) {
    && StateOf(t, partition) == StateOf(t', partition) && PositionOf(t, partition) == PositionOf(t', partition)
    && LagOf(t, partition) == LagOf(t', partition) && StreamOf(streams, partition) == StreamOf(streams', partition)
  }

  function SavedAll(t: Tracker, streams: Streams): (Tracker, Streams) {
    SavedOver(t, streams, t.lags.Keys)
  }

  lemma SavedNext(t: Tracker, streams: Streams, partitions: set<string>, partition: string)
    requires partition !in partitions
    ensures var (t', streams') := SavedOver(t, streams, partitions);
      Saved(t', streams', partition) == SavedOver(t, streams, partitions + {partition})
      && Refuses(t', streams', partition) == Refuses(t, streams, partition)
  {
    WritableNext(t, streams, partitions, partition);
    SavedOverElsewhere(t, streams, partitions, partition);
    if Writes(t, streams, partition) {
      var before := Writable(t, streams, partitions);
      PositionsNext(t.positions, streams, before, partition);
      LagsNext(t.lags, before, partition);
      AdditionsNext(t, streams, before, partition);
    }
  }

  lemma WritableNext(t: Tracker, streams: Streams, partitions: set<string>, partition: string)
    ensures Writable(t, streams, partitions + {partition})
         == if Writes(t, streams, partition) then Writable(t, streams, partitions) + {partition}
            else Writable(t, streams, partitions)
  {
  }

  lemma PositionsNext(
      positions: map<string, Option<int>>, streams: Streams, written: set<string>, partition: string)
    ensures positions + PositionsAfter(streams, written + {partition})
         == (positions + PositionsAfter(streams, written))[partition := Some(|StreamOf(streams, partition)|)]
  {
  }

  lemma LagsNext(lags: map<string, nat>, written: set<string>, partition: string)
    ensures lags + NoLags(written + {partition}) == (lags + NoLags(written))[partition := 0]
  {
  }

  lemma AdditionsNext(t: Tracker, streams: Streams, written: set<string>, partition: string)
    requires forall p :: p in written + {partition} ==> StateOf(t, p).Some?
    ensures streams + Additions(t, streams, written + {partition})
         == (streams + Additions(t, streams, written))[
              partition := StreamOf(streams, partition) + [Serialise(StateOf(t, partition).value)]]
  {
  }

  lemma SavedOverElsewhere(
      t: Tracker, streams: Streams, partitions: set<string>, partition: string)
    requires partition !in Writable(t, streams, partitions)
    ensures var (t', streams') := SavedOver(t, streams, partitions);
      SameAt(t', streams', t, streams, partition)
  {
  }

  lemma SavedNone(t: Tracker, streams: Streams)
    ensures SavedOver(t, streams, {}) == (t, streams)
  {
    assert Writable(t, streams, {}) == {};
    assert PositionsAfter(streams, {}) == map[] && NoLags({}) == map[] && Additions(t, streams, {}) == map[];
    assert t.positions + map[] == t.positions && t.lags + map[] == t.lags && streams + map[] == streams;
  }

  /** For each partition, saving all is saving it. */
  lemma SavedAllAt(t: Tracker, streams: Streams, partition: string)
    ensures var (all, allStreams) := SavedAll(t, streams);
      var (one, oneStreams) := Saved(t, streams, partition);
      SameAt(all, allStreams, one, oneStreams, partition)
  {
    if Writes(t, streams, partition) {
      SavedOverWritten(t, streams, t.lags.Keys, partition);
    } else {
      SavedOverElsewhere(t, streams, t.lags.Keys, partition);
    }
  }

  lemma SavedOverWritten(
      t: Tracker, streams: Streams, partitions: set<string>, partition: string)
    requires partition in Writable(t, streams, partitions)
    ensures var (t', streams') := SavedOver(t, streams, partitions);
      && StateOf(t', partition) == StateOf(t, partition)
      && PositionOf(t', partition) == Some(|StreamOf(streams, partition)|) && LagOf(t', partition) == 0
      && StreamOf(streams', partition) == StreamOf(streams, partition) + [Serialise(StateOf(t, partition).value)]
  {
  }

  /** Unless some write is refused, saving all writes each state that lags once, and afterwards none does. */
  lemma SavedAllWrites(t: Tracker, streams: Streams)
    requires forall partition :: !Refuses(t, streams, partition)
    ensures var (t', streams') := SavedAll(t, streams);
      forall partition :: Written(t, streams, t', streams', partition)
  {
    var (t', streams') := SavedAll(t, streams);
    forall partition ensures Written(t, streams, t', streams', partition) {
      assert !Refuses(t, streams, partition);
      SavedAllAt(t, streams, partition);
    }
  }

  lemma SavedAllKeepsInStep(t: Tracker, streams: Streams)
    requires InStep(t, streams)
    ensures InStep(SavedAll(t, streams).0, SavedAll(t, streams).1)
  {
    forall partition
      ensures Expected(SavedAll(t, streams).0, SavedAll(t, streams).1, partition)
           == TailPosition(SavedAll(t, streams).1, partition)
    {
      InStepAfterAll(t, streams, SavedAll(t, streams).0, SavedAll(t, streams).1, partition);
    }
  }

  lemma InStepAfterAll(
      t: Tracker, streams: Streams, t': Tracker, streams': Streams, partition: string)
    requires InStep(t, streams) && (t', streams') == SavedAll(t, streams)
    ensures Expected(t', streams', partition) == TailPosition(streams', partition)
  {
    var (one, oneStreams) := Saved(t, streams, partition);
    SavedAllAt(t, streams, partition);
    SavedKeepsInStep(t, streams, partition);
    assert Expected(t', streams', partition) == Expected(one, oneStreams, partition);
    assert TailPosition(streams', partition) == TailPosition(oneStreams, partition);
  }

  ghost predicate Written(t0: Tracker, streams0: Streams, t: Tracker, streams: Streams, partition: string) {
    && StateOf(t, partition) == StateOf(t0, partition) && !Behind(t, partition)
    && StreamOf(streams, partition) == StreamOf(streams0, partition) +
         (if Behind(t0, partition) then [Serialise(StateOf(t0, partition).value)] else [])
  }

  predicate Due(interval: Option<nat>, t: Tracker, partition: string) {
    interval.Some? && interval.value != 0 && LagOf(t, partition) >= interval.value
  }

  function Loaded(t: Tracker, streams: Streams, partition: string): Result<Tracker, StateError> {
    var events := StreamOf(streams, partition);
    if StateOf(t, partition).Some? then Success(t)
    else if events == [] then
      Success(t.(states := t.states[partition := None], positions := t.positions[partition := None]))
    else
      var state :- Deserialise(events[|events| - 1]);
      Success(t.(states := t.states[partition := Some(state)],
                 positions := t.positions[partition := Some(|events| - 1)]))
  }

  /** No partition's stream has been written by anyone else. */
  ghost predicate InStep(t: Tracker, streams: Streams) {
    forall partition :: Expected(t, streams, partition) == TailPosition(streams, partition)
  }

  lemma SavedKeepsInStep(t: Tracker, streams: Streams, partition: string)
    requires InStep(t, streams)
    ensures InStep(Saved(t, streams, partition).0, Saved(t, streams, partition).1)
  {
    var (t', streams') := Saved(t, streams, partition);
    forall other ensures Expected(t', streams', other) == TailPosition(streams', other) {
      assert Expected(t, streams, other) == TailPosition(streams, other);
    }
  }

  // The category, and the store as an object.

  class EventCategory {
    var streams: Streams

    constructor ()
      ensures streams == map[]
    {
      streams := map[];
    }

    method Publish(
        partition: string, payload: Json, condition: WriteCondition) returns (r: Result<int, UnmetWriteCondition>)
      modifies this
      ensures r.Success? <==> Holds(condition, TailPosition(old(streams), partition))
      ensures r.Failure? ==> streams == old(streams)
      ensures r.Success? ==>
        && streams == old(streams)[partition := StreamOf(old(streams), partition) + [payload]]
        && r.value == |StreamOf(old(streams), partition)|
    {
      var enforced := AssertSatisfied(condition, TailPosition(streams, partition));
      if enforced.Failure? {
        return Failure(enforced.error);
      }
      var events := StreamOf(streams, partition);
      streams := streams[partition := events + [payload]];
      r := Success(|events|);
    }
  }

  class EventConsumerStateStore {
    const category: EventCategory
    const persistenceInterval: Option<nat>
    var states: map<string, Option<EventConsumerState>>
    var positions: map<string, Option<int>>
    var persistenceLags: map<string, nat>

    ghost function Value(): Tracker
      reads this
    {
      Tracker(states, positions, persistenceLags)
    }

    constructor (category: EventCategory, persistenceInterval: Option<nat> := Some(100))
      ensures this.category == category && this.persistenceInterval == persistenceInterval
      ensures Value() == FRESH_TRACKER
    {
      this.category, this.persistenceInterval := category, persistenceInterval;
      states, positions, persistenceLags := map[], map[], map[];
    }

    function Lag(partition: string): (r: nat)
      reads this
      ensures r == LagOf(Value(), partition)
    {
      if partition in persistenceLags then persistenceLags[partition] else 0
    }

    /** Extra state takes precedence over what the event gives. */
    method RecordProcessed(
        e: StoredEvent, extraState: EventConsumerState, partition: string) returns (state: EventConsumerState)
      modifies this
      ensures state == EventToState(e) + extraState
      ensures Value() == RecordedIn(old(Value()), partition, state)
    {
      state := EventToState(e) + extraState;
      states := states[partition := Some(state)];
      persistenceLags := persistenceLags[partition := Lag(partition) + 1];
    }

    method Reset(extraState: EventConsumerState, partition: string)
      modifies this
      ensures Value() == old(Value()).(
        states := old(states)[partition := Some(map[LAST := JsonNull] + extraState)],
        lags := old(persistenceLags)[partition := 0])
    {
      states := states[partition := Some(map[LAST := JsonNull] + extraState)];
      persistenceLags := persistenceLags[partition := 0];
    }

    method SavePartition(partition: string) returns (r: Result<(), UnmetWriteCondition>)
      modifies this, category
      ensures (Value(), category.streams) == Saved(old(Value()), old(category.streams), partition)
      ensures r.Success? <==> !Refuses(old(Value()), old(category.streams), partition)
    {
      if partition !in states || states[partition].None? || Lag(partition) == 0 {
        return Success(());
      }
      var position := if partition in positions then positions[partition] else None;
      if position.None? {
        position := TailPosition(category.streams, partition);
      }
      var condition := if position.None? then EmptyStream else PositionIs(position);
      var published := category.Publish(partition, Serialise(states[partition].value), condition);
      if published.Failure? {
        return Failure(published.error);
      }
      positions := positions[partition := Some(published.value)];
      persistenceLags := persistenceLags[partition := 0];
      r := Success(());
    }

    method SaveIfNeeded(partition: string) returns (r: Result<(), UnmetWriteCondition>)
      modifies this, category
      ensures (Value(), category.streams) ==
        if Due(persistenceInterval, old(Value()), partition) then
          Saved(old(Value()), old(category.streams), partition)
        else (old(Value()), old(category.streams))
      ensures r.Failure? <==>
        Due(persistenceInterval, old(Value()), partition)
        && Refuses(old(Value()), old(category.streams), partition)
    {
      r := Success(());
      if persistenceInterval.Some? && persistenceInterval.value != 0 && Lag(partition) >= persistenceInterval.value {
        r := SavePartition(partition);
      }
    }

    /** A refused write ends the save; the states written before it stay written. */
    method Save() returns (r: Result<(), UnmetWriteCondition>)
      modifies this, category
      ensures r.Success? <==> forall partition :: !Refuses(old(Value()), old(category.streams), partition)
      ensures r.Success? ==>
        && (Value(), category.streams) == SavedAll(old(Value()), old(category.streams))
        && forall partition :: Written(old(Value()), old(category.streams), Value(), category.streams, partition)
      ensures r.Failure? ==> exists written: set<string> ::
        (Value(), category.streams) == SavedOver(old(Value()), old(category.streams), written)
      ensures InStep(old(Value()), old(category.streams)) ==>
        r.Success? && InStep(Value(), category.streams)
    {
      ghost var t, streams := Value(), category.streams;
      var partitions := Enumerate(persistenceLags.Keys);
      SavedNone(t, streams);
      for i := 0 to |partitions|
        invariant (Value(), category.streams) == SavedOver(t, streams, ToSet(partitions[..i]))
        invariant forall partition :: partition in partitions[..i] ==> !Refuses(t, streams, partition)
      {
        assert partitions[i] !in partitions[..i];
        assert ToSet(partitions[..i + 1]) == ToSet(partitions[..i]) + {partitions[i]};
        SavedNext(t, streams, ToSet(partitions[..i]), partitions[i]);
        r := SavePartition(partitions[i]);
        if r.Failure? {
          return r;
        }
      }
      assert partitions[..|partitions|] == partitions && ToSet(partitions) == t.lags.Keys;
      SavedAllWrites(t, streams);
      if InStep(t, streams) {
        SavedAllKeepsInStep(t, streams);
      }
      r := Success(());
    }

    method Load(partition: string) returns (r: Result<Option<EventConsumerState>, StateError>)
      modifies this
      ensures match Loaded(old(Value()), category.streams, partition)
        case Success(t) => Value() == t && r == Success(StateOf(t, partition))
        case Failure(error) => Value() == old(Value()) && r == Failure(error)
    {
      if partition !in states || states[partition].None? {
        var events := StreamOf(category.streams, partition);
        if events == [] {
          states := states[partition := None];
          positions := positions[partition := None];
        } else {
          var state := Deserialise(events[|events| - 1]);
          if state.Failure? {
            return Failure(state.error);
          }
          states := states[partition := Some(state.value)];
          positions := positions[partition := Some(|events| - 1)];
        }
      }
      r := Success(if partition in states then states[partition] else None);
    }

    method LoadToQueryConstraint(partition: string) returns (r: Result<Option<int>, StateError>)
      modifies this
      ensures match Loaded(old(Value()), category.streams, partition)
        case Success(t) => Value() == t && r == Success(Constraint(t, partition))
        case Failure(error) => Value() == old(Value()) && r == Failure(error)
    {
      var state := Load(partition);
      if state.Failure? {
        return Failure(state.error);
      }
      r := Success(if state.value.None? then None else ResumeAfter(state.value.value));
    }
  }

  function Constraint(t: Tracker, partition: string): Option<int> {
    if StateOf(t, partition).None? then None else ResumeAfter(StateOf(t, partition).value)
  }

  /** A reset is not written by a following save: it leaves no lag. */
  lemma ResetIsNotPersisted(
      t: Tracker, streams: Streams, partition: string, state: EventConsumerState)
    ensures var reset := t.(states := t.states[partition := Some(state)], lags := t.lags[partition := 0]);
      Saved(reset, streams, partition) == (reset, streams)
  {
  }
}
