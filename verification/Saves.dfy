/**
 Saves under interleaving (store/adapters/memory/adapter.py). A save is a small program: take
 the locks one by one, then per stream read the latest event, check the condition and draw
 one sequence number per event, then commit everything and release the locks. Other saves may
 run between any two of these steps.
 */
module Saves {
  import opened Prelude
  import opened Events
  import opened EventsDb
  import opened Conditions
  import opened LockNames

  datatype Stage =
    | Acquiring(held: nat)
    | Opening(next: nat)
    | Reading(part: nat, latest: Option<StoredEvent>)
    | Drawing(part: nat, drawn: nat, last: int)
    | Committed(at: nat)
    | Rejected

  datatype Process = Process(save: Save, stage: Stage, added: seq<StoredEvent>) {
    predicate Active() {
      stage.Opening? || stage.Reading? || stage.Drawing?
    }

    predicate Finished() {
      stage.Committed? || stage.Rejected?
    }

    function Source(k: nat): EventSource
      requires k < |save.Parts()|
    {
      Stream(save.category, save.Parts()[k].stream)
    }
  }

  /** `locks` maps the name of a taken lock to the process holding it. */
  datatype State = State(
    locks: map<string, nat>, sequence: nat, log: seq<StoredEvent>, processes: seq<Process>)

  function Held(g: Guarantee, p: Process): seq<string> {
    var names := RequiredLocks(g, p.save);
    match p.stage
    case Acquiring(held) => if held <= |names| then names[..held] else names
    case Committed(_) => []
    case Rejected => []
    case _ => names
  }

  predicate InRange(g: Guarantee, p: Process) {
    var parts := p.save.Parts();
    match p.stage
    case Acquiring(held) => held <= |RequiredLocks(g, p.save)|
    case Opening(next) => next <= |parts|
    case Reading(part, _) => part < |parts|
    case Drawing(part, drawn, _) => part < |parts| && drawn <= |parts[part].events|
    case _ => true
  }

  /** A step is possible unless the process is done or waits for a lock another one holds. */
  predicate Enabled(g: Guarantee, s: State, p: nat) {
    && p < |s.processes| && InRange(g, s.processes[p])
    && var process := s.processes[p];
       match process.stage
       case Acquiring(held) =>
         held < |RequiredLocks(g, process.save)| ==> RequiredLocks(g, process.save)[held] !in s.locks
       case Committed(_) => false
       case Rejected => false
       case _ => true
  }

  function Release(locks: map<string, nat>, names: seq<string>): map<string, nat> {
    map name | name in locks && name !in names :: locks[name]
  }

  function Store(p: Process, part: nat, drawn: nat, last: int, number: nat): StoredEvent
    requires part < |p.save.Parts()| && drawn < |p.save.Parts()[part].events|
  {
    var target := p.save.Parts()[part];
    StoredEvent(target.events[drawn], p.save.category, target.stream, last + drawn + 1, number)
  }

  ghost function Step(g: Guarantee, s: State, p: nat): State
    requires Enabled(g, s, p)
  {
    var process := s.processes[p];
    var parts, names := process.save.Parts(), RequiredLocks(g, process.save);
    match process.stage
    case Acquiring(held) =>
      if held == |names| then Advance(s, p, Opening(0))
      else Advance(s.(locks := s.locks[names[held] := p]), p, Acquiring(held + 1))
    case Opening(next) =>
      if next < |parts| then Advance(s, p, Reading(next, LatestOf(process.Source(next), s.log)))
      else
        Advance(s.(locks := Release(s.locks, names), log := s.log + process.added), p, Committed(|s.log|))
    case Reading(part, latest) =>
      if Holds(parts[part].condition, Tail(latest)) then
        Advance(s, p, Drawing(part, 0, PositionOf(LatestOf(process.Source(part), s.log), -1)))
      else
        s.(locks := Release(s.locks, names), processes := s.processes[p := Process(process.save, Rejected, [])])
    case Drawing(part, drawn, last) =>
      if drawn < |parts[part].events| then
        s.(sequence := s.sequence + 1,
           processes := s.processes[p := Process(
             process.save, Drawing(part, drawn + 1, last),
             process.added + [Store(process, part, drawn, last, s.sequence)])])
      else Advance(s, p, Opening(part + 1))
  }

  function Advance(s: State, p: nat, stage: Stage): State
    requires p < |s.processes|
  {
    s.(processes := s.processes[p := s.processes[p].(stage := stage)])
  }

  function Tail(latest: Option<StoredEvent>): Option<int> {
    if latest.None? then None else Some(latest.value.position)
  }

  /** The scheduler picks the process to run next; picking one that cannot run changes nothing. */
  ghost function Run(g: Guarantee, s: State, schedule: seq<nat>): State
    decreases |schedule|
  {
    if schedule == [] then s
    else Run(g, if Enabled(g, s, schedule[0]) then Step(g, s, schedule[0]) else s, schedule[1..])
  }

  function Start(saves: seq<Save>): State {
    State(map[], 0, [], Map((save: Save) => Process(save, Acquiring(0), []), saves))
  }

  // Locks.

  ghost predicate Owns(locks: map<string, nat>, names: seq<string>, p: nat) {
    forall name :: name in names ==> name in locks && locks[name] == p
  }

  ghost predicate HasHolder(g: Guarantee, s: State, name: string)
    requires name in s.locks
  {
    s.locks[name] < |s.processes| && name in Held(g, s.processes[s.locks[name]])
  }

  /** A lock is taken exactly when the process it maps to holds it. */
  ghost predicate LocksConsistent(g: Guarantee, s: State) {
    && (forall p :: 0 <= p < |s.processes| ==> Owns(s.locks, Held(g, s.processes[p]), p))
    && (forall name :: name in s.locks ==> HasHolder(g, s, name))
  }

  /** No lock is ever held by two saves. */
  lemma MutualExclusion(g: Guarantee, s: State, p: nat, q: nat, name: string)
    requires LocksConsistent(g, s) && p < |s.processes| && q < |s.processes|
    requires name in Held(g, s.processes[p]) && name in Held(g, s.processes[q])
    ensures p == q
  {
    assert Owns(s.locks, Held(g, s.processes[p]), p) && Owns(s.locks, Held(g, s.processes[q]), q);
  }

  /** `s'` differs from `s` in process `p` only, as far as processes go. */
  ghost predicate OnlyMoves(s: State, p: nat, s': State) {
    && p < |s.processes| == |s'.processes|
    && forall q :: 0 <= q < |s.processes| && q != p ==> s'.processes[q] == s.processes[q]
  }

  lemma StepOnlyMoves(g: Guarantee, s: State, p: nat)
    requires Enabled(g, s, p)
    ensures OnlyMoves(s, p, Step(g, s, p)) && Step(g, s, p).processes[p].save == s.processes[p].save
  {
  }

  lemma LocksKept(g: Guarantee, s: State, p: nat, s': State)
    requires LocksConsistent(g, s) && OnlyMoves(s, p, s')
    requires Held(g, s'.processes[p]) == Held(g, s.processes[p]) && s'.locks == s.locks
    ensures LocksConsistent(g, s')
  {
    forall q | 0 <= q < |s'.processes| ensures Owns(s'.locks, Held(g, s'.processes[q]), q) {
      assert Owns(s.locks, Held(g, s.processes[q]), q);
    }
    forall name | name in s'.locks ensures HasHolder(g, s', name) {
      assert HasHolder(g, s, name);
    }
  }

  lemma LockTaken(g: Guarantee, s: State, p: nat, s': State, name: string)
    requires LocksConsistent(g, s) && OnlyMoves(s, p, s') && name !in s.locks
    requires Held(g, s'.processes[p]) == Held(g, s.processes[p]) + [name] && s'.locks == s.locks[name := p]
    ensures LocksConsistent(g, s')
  {
    forall q | 0 <= q < |s'.processes| ensures Owns(s'.locks, Held(g, s'.processes[q]), q) {
      assert Owns(s.locks, Held(g, s.processes[q]), q);
    }
    forall other | other in s'.locks ensures HasHolder(g, s', other) {
      assert other != name ==> HasHolder(g, s, other);
    }
  }

  lemma LocksReleased(g: Guarantee, s: State, p: nat, s': State)
    requires LocksConsistent(g, s) && OnlyMoves(s, p, s')
    requires Held(g, s'.processes[p]) == [] && s'.locks == Release(s.locks, Held(g, s.processes[p]))
    ensures LocksConsistent(g, s')
  {
    forall q | 0 <= q < |s'.processes| ensures Owns(s'.locks, Held(g, s'.processes[q]), q) {
      if q != p {
        assert Owns(s.locks, Held(g, s.processes[q]), q) && Owns(s.locks, Held(g, s.processes[p]), p);
        assert s'.processes[q] == s.processes[q];
      }
    }
    forall name | name in s'.locks ensures HasHolder(g, s', name) {
      assert HasHolder(g, s, name);
    }
  }

  lemma StepKeepsLocks(g: Guarantee, s: State, p: nat)
    requires LocksConsistent(g, s) && Enabled(g, s, p)
    ensures LocksConsistent(g, Step(g, s, p))
  {
    var s', process := Step(g, s, p), s.processes[p];
    var names := RequiredLocks(g, process.save);
    StepOnlyMoves(g, s, p);
    if process.stage.Acquiring? && process.stage.held < |names| {
      var held := process.stage.held;
      assert names[..held + 1] == names[..held] + [names[held]];
      LockTaken(g, s, p, s', names[held]);
    } else if s'.processes[p].Finished() {
      LocksReleased(g, s, p, s');
    } else {
      assert names[..|names|] == names;
      LocksKept(g, s, p, s');
    }
  }
}
