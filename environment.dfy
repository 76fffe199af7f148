/**
 * The environment: a role registry keyed by profile, a history string,
 * and the FIFO queue of "artifact committed" events.
 */
module Environments {
  import opened Common
  import opened Schema

  /** A role; only its profile matters to the registry. */
  class Role {
    const profile: string

    constructor (profile: string)
      ensures this.profile == profile
    {
      this.profile := profile;
    }
  }

  /** Every role is stored under its own profile. */
  ghost predicate KeyedByProfile(m: map<string, Role>)
  {
    forall p :: p in m ==> m[p].profile == p
  }

  /** `add_role` on the dictionary alone. */
  function Register(m: map<string, Role>, r: Role): map<string, Role>
  {
    m[r.profile := r]
  }

  /** The dictionary after `add_role` for each of `rs`, in order. */
  function RegisterAll(m: map<string, Role>, rs: seq<Role>): map<string, Role>
    decreases |rs|
  {
    if rs == [] then m else Register(RegisterAll(m, rs[..|rs| - 1]), rs[|rs| - 1])
  }

  /** The position of the last role in `rs` with profile `p`, if any. */
  function LastWithProfile(rs: seq<Role>, p: string): (r: Option<nat>)
    ensures r.Some? ==> r.value < |rs| && rs[r.value].profile == p
    ensures r.Some? ==> forall j :: r.value < j < |rs| ==> rs[j].profile != p
    ensures r.None? ==> forall j :: 0 <= j < |rs| ==> rs[j].profile != p
    decreases |rs|
  {
    if rs == [] then None
    else if rs[|rs| - 1].profile == p then Some(|rs| - 1)
    else LastWithProfile(rs[..|rs| - 1], p)
  }

  /**
   * `add_roles` is last-writer-wins per profile: a profile some role in
   * `rs` carries maps to the last such role, and any other entry is kept.
   */
  lemma {:induction false} RegisterAllLastWins(m: map<string, Role>, rs: seq<Role>, p: string)
    ensures p in RegisterAll(m, rs) <==> p in m || LastWithProfile(rs, p).Some?
    ensures LastWithProfile(rs, p).Some? ==> RegisterAll(m, rs)[p] == rs[LastWithProfile(rs, p).value]
    ensures LastWithProfile(rs, p).None? && p in m ==> RegisterAll(m, rs)[p] == m[p]
    decreases |rs|
  {
    if rs != [] {
      RegisterAllLastWins(m, rs[..|rs| - 1], p);
    }
  }

  /** Registering roles keeps every role stored under its own profile. */
  lemma {:induction false} RegisterAllKeyedByProfile(m: map<string, Role>, rs: seq<Role>)
    requires KeyedByProfile(m)
    ensures KeyedByProfile(RegisterAll(m, rs))
    decreases |rs|
  {
    if rs != [] {
      RegisterAllKeyedByProfile(m, rs[..|rs| - 1]);
    }
  }

  /** One queue operation: `publish_event(e)` or `get_next_event()`. */
  datatype QueueOp = Publish(event: Event) | Next

  /** The queue after `op`, and what `op` returns. */
  function Step(q: seq<Event>, op: QueueOp): (seq<Event>, Option<Event>)
  {
    match op
    case Publish(e) => (q + [e], None)
    case Next => if |q| > 0 then (q[1..], Some(q[0])) else (q, None)
  }

  /** The events published by `ops`, in order. */
  function Published(ops: seq<QueueOp>): seq<Event>
  {
    if ops == [] then []
    else (if ops[0].Publish? then [ops[0].event] else []) + Published(ops[1..])
  }

  /** What one operation hands back, as a sequence of at most one event. */
  function Emitted(got: Option<Event>): seq<Event>
  {
    if got.Some? then [got.value] else []
  }

  /** Runs `ops` from queue `q`: the events delivered, and the final queue. */
  function Replay(q: seq<Event>, ops: seq<QueueOp>): (seq<Event>, seq<Event>)
    decreases |ops|
  {
    if ops == [] then ([], q)
    else
      var step := Step(q, ops[0]);
      var rest := Replay(step.0, ops[1..]);
      (Emitted(step.1) + rest.0, rest.1)
  }

  /**
   * FIFO: whatever mix of publishes and pops runs, the events delivered
   * followed by those still queued are exactly the events that were
   * queued at the start followed by those published, in publication order.
   */
  lemma {:induction false} DeliveryIsFifo(q: seq<Event>, ops: seq<QueueOp>)
    ensures Replay(q, ops).0 + Replay(q, ops).1 == q + Published(ops)
    decreases |ops|
  {
    if ops != [] {
      var step := Step(q, ops[0]);
      var rest := Replay(step.0, ops[1..]);
      DeliveryIsFifo(step.0, ops[1..]);
      var head := if ops[0].Publish? then [ops[0].event] else [];
      assert Published(ops) == head + Published(ops[1..]);
      if ops[0].Next? && |q| > 0 {
        assert [q[0]] + q[1..] == q;
      }
      assert Emitted(step.1) + step.0 == q + head;
      calc {
        Replay(q, ops).0 + Replay(q, ops).1;
        (Emitted(step.1) + rest.0) + rest.1;
        Emitted(step.1) + (step.0 + Published(ops[1..]));
        (q + head) + Published(ops[1..]);
        q + Published(ops);
      }
    }
  }

  /** The delivered events are always a prefix of queued-then-published. */
  lemma DeliveredIsPrefix(q: seq<Event>, ops: seq<QueueOp>)
    ensures Replay(q, ops).0 <= q + Published(ops)
  {
    DeliveryIsFifo(q, ops);
  }

  class Environment {
    var roles: map<string, Role>
    var history: string
    /** The messages handed to `memory.add`, in order. */
    var memory: seq<Message>
    /** The roles handed to `role.set_env(self)`, in order. */
    ghost var boundRoles: seq<Role>
    var eventQueue: seq<Event>
    var taskQueue: seq<Task>

    ghost predicate Valid()
      reads this
    {
      KeyedByProfile(roles)
    }

    constructor ()
      ensures Valid()
      ensures roles == map[] && history == "" && memory == [] && boundRoles == []
      ensures eventQueue == [] && taskQueue == []
    {
      roles := map[];
      history := "";
      memory := [];
      boundRoles := [];
      eventQueue := [];
      taskQueue := [];
    }

    method AddRole(role: Role)
      requires Valid()
      modifies this
      ensures Valid()
      ensures roles == Register(old(roles), role)
      ensures boundRoles == old(boundRoles) + [role]
      ensures history == old(history) && memory == old(memory)
      ensures eventQueue == old(eventQueue) && taskQueue == old(taskQueue)
    {
      boundRoles := boundRoles + [role];
      roles := roles[role.profile := role];
    }

    method AddRoles(rs: seq<Role>)
      requires Valid()
      modifies this
      ensures Valid()
      ensures roles == RegisterAll(old(roles), rs)
      ensures boundRoles == old(boundRoles) + rs
      ensures history == old(history) && memory == old(memory)
      ensures eventQueue == old(eventQueue) && taskQueue == old(taskQueue)
    {
      var i := 0;
      while i < |rs|
        invariant 0 <= i <= |rs|
        invariant Valid()
        invariant roles == RegisterAll(old(roles), rs[..i])
        invariant boundRoles == old(boundRoles) + rs[..i]
        invariant history == old(history) && memory == old(memory)
        invariant eventQueue == old(eventQueue) && taskQueue == old(taskQueue)
      {
        AddRole(rs[i]);
        assert rs[..i + 1][..i] == rs[..i];
        i := i + 1;
      }
      assert rs[..i] == rs;
    }

    function GetRole(name: string): (r: Option<Role>)
      requires Valid()
      reads this
      ensures r.Some? <==> name in roles
      ensures r.Some? ==> r.value == roles[name] && r.value.profile == name
    {
      if name in roles then Some(roles[name]) else None
    }

    method PublishMessage(message: Message, show: Message -> string)
      modifies this
      ensures memory == old(memory) + [message]
      ensures history == old(history) + "\n" + show(message)
      ensures roles == old(roles) && boundRoles == old(boundRoles)
      ensures eventQueue == old(eventQueue) && taskQueue == old(taskQueue)
    {
      memory := memory + [message];
      history := history + "\n" + show(message);
    }

    method PublishEvent(event: Event)
      modifies this
      ensures (eventQueue, None) == Step(old(eventQueue), Publish(event))
      ensures eventQueue == old(eventQueue) + [event]
      ensures roles == old(roles) && boundRoles == old(boundRoles)
      ensures history == old(history) && memory == old(memory) && taskQueue == old(taskQueue)
    {
      eventQueue := eventQueue + [event];
    }

    method GetNextEvent() returns (event: Option<Event>)
      modifies this
      ensures (eventQueue, event) == Step(old(eventQueue), Next)
      ensures old(eventQueue) == [] ==> event == None && eventQueue == []
      ensures old(eventQueue) != [] ==> event == Some(old(eventQueue)[0]) && eventQueue == old(eventQueue)[1..]
      ensures roles == old(roles) && boundRoles == old(boundRoles)
      ensures history == old(history) && memory == old(memory) && taskQueue == old(taskQueue)
    {
      if |eventQueue| > 0 {
        event := Some(eventQueue[0]);
        eventQueue := eventQueue[1..];
      } else {
        event := None;
      }
    }
  }
}
