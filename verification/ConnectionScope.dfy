/** Leasing pooled database connections. The settings of a session stay on the
    connection between leases; a remembered signature saves writing them again. */
module ConnectionScope {
  import opened Standard
  import opened ConnectionSignature

  /** A remembered signature is only ever that of the settings the session has. */
  ghost predicate CacheHonest(env: Env, settings: map<nat, Settings>, signatures: map<nat, string>) {
    forall c, ctx :: c in settings && c in signatures && Signature(env, ctx) == signatures[c] ==>
      settings[c] == ValuesOf(env, ctx)
  }

  lemma {:induction false} WriteKeepsHonest(env: Env, settings: map<nat, Settings>, signatures: map<nat, string>,
                                            client: nat, ctx: Context)
    requires CacheHonest(env, settings, signatures)
    ensures CacheHonest(env, settings[client := ValuesOf(env, ctx)], signatures[client := Signature(env, ctx)])
  {
    forall other | Signature(env, other) == Signature(env, ctx)
      ensures ValuesOf(env, other) == ValuesOf(env, ctx)
    {
      EqualSignaturesEqualSettings(env, other, env, ctx);
    }
  }

  /** One lease at a time: the wrappers around the physical pool. */
  class ScopedPool {
    const env: Env
    var settings: map<nat, Settings>
    var free: set<nat>
    var clientScopeSignatures: map<nat, string>

    ghost predicate Valid()
      reads this
    {
      (forall c :: c in free ==> c in settings) && CacheHonest(env, settings, clientScopeSignatures)
    }

    constructor (env: Env)
      ensures Valid() && this.env == env && settings == map[] && free == {} && clientScopeSignatures == map[]
    {
      this.env := env;
      settings, free, clientScopeSignatures := map[], {}, map[];
    }

    /** Leaves the connection with exactly the settings the context asks for, as an
        unconditional write would; a refused write leaves everything as it was. */
    method EnsureDatabaseClientScope(client: nat, ctx: Context, refused: bool) returns (ok: bool)
      requires Valid() && client in settings
      modifies this`settings, this`clientScopeSignatures
      ensures Valid()
      ensures ok ==> settings == old(settings)[client := ValuesOf(env, ctx)]
      ensures ok ==> AsAsked(env, ctx, settings[client])
      ensures ok ==> clientScopeSignatures == old(clientScopeSignatures)[client := Signature(env, ctx)]
      ensures !ok ==> settings == old(settings) && clientScopeSignatures == old(clientScopeSignatures)
      ensures ok <==> !refused || (client in old(clientScopeSignatures)
                                   && old(clientScopeSignatures)[client] == Signature(env, ctx))
    {
      ValuesAreAsked(env, ctx);
      var signature := Signature(env, ctx);
      if client in clientScopeSignatures && clientScopeSignatures[client] == signature { return true; }
      if refused { return false; }
      WriteKeepsHonest(env, settings, clientScopeSignatures, client, ctx);
      settings := settings[client := ValuesOf(env, ctx)];
      clientScopeSignatures := clientScopeSignatures[client := signature];
      ok := true;
    }

    method ScopedPoolConnect(client: nat, ctx: Context, refused: bool) returns (ok: bool)
      requires Valid() && client in free
      modifies this
      ensures Valid()
      ensures ok ==> settings == old(settings)[client := ValuesOf(env, ctx)] && free == old(free) - {client}
      ensures ok ==> AsAsked(env, ctx, settings[client])
      ensures !ok ==> settings == old(settings) && free == old(free)
      ensures !refused ==> ok
    {
      free := free - {client};
      ok := EnsureDatabaseClientScope(client, ctx, refused);
      if !ok { free := free + {client}; }
    }

    /** A single query: it runs under the context's settings or not at all, and the
        connection goes back to the pool. */
    method ScopedPoolQuery(client: nat, ctx: Context, refused: bool) returns (ranUnder: Option<Settings>)
      requires Valid() && client in free
      modifies this
      ensures Valid() && free == old(free)
      ensures ranUnder == None || ranUnder == Some(ValuesOf(env, ctx))
      ensures ranUnder.Some? ==> AsAsked(env, ctx, ranUnder.value)
      ensures !refused ==> ranUnder.Some?
      ensures settings == if ranUnder.Some? then old(settings)[client := ValuesOf(env, ctx)] else old(settings)
    {
      var ok := ScopedPoolConnect(client, ctx, refused);
      if !ok { return None; }
      ranUnder := Some(settings[client]);
      free := free + {client};
    }
  }

  // ---- Many leases at once ------------------------------------------------------------------

  /** What a piece of asynchronous work is doing; `ctx` is the context the lease began under. */
  datatype Phase =
    | Resting
    | Waiting
    | Writing(client: nat, ctx: Context)
    | Holding(client: nat, ctx: Context)

  datatype Task = Task(ctx: Context, phase: Phase)

  datatype Pool = Pool(settings: map<nat, Settings>, free: set<nat>, signatures: map<nat, string>,
                       tasks: map<nat, Task>)

  /** What can happen between two awaits. A connection is never reopened under an
      old key: each is a new client object. */
  datatype Event =
    | Open(client: nat, initial: Settings)
    | Close(client: nat)
    | Change(task: nat, ctx: Context)
    | Ask(task: nat)
    | Grant(task: nat, client: nat)
    | Written(task: nat)
    | Refused(task: nat)
    | Lost(task: nat)
    | Release(task: nat)

  function TaskOf(s: Pool, t: nat): Task {
    if t in s.tasks then s.tasks[t] else Task(Context(None, None), Resting)
  }

  function Becomes(s: Pool, t: nat, phase: Phase): Pool {
    s.(tasks := s.tasks[t := TaskOf(s, t).(phase := phase)])
  }

  function Busy(phase: Phase): Option<nat> {
    if phase.Writing? || phase.Holding? then Some(phase.client) else None
  }

  predicate Remembered(env: Env, s: Pool, client: nat, ctx: Context) {
    client in s.signatures && s.signatures[client] == Signature(env, ctx)
  }

  /** One event; one that cannot happen in this state changes nothing. Without the
      cache every grant goes on to a write. */
  function Step(env: Env, cache: bool, s: Pool, e: Event): Pool {
    match e
    case Open(c, initial) =>
      if c in s.settings || c in s.signatures then s
      else s.(settings := s.settings[c := initial], free := s.free + {c})
    case Close(c) =>
      if c !in s.free then s else s.(settings := s.settings - {c}, free := s.free - {c})
    case Change(t, ctx) =>
      if TaskOf(s, t).phase.Waiting? || TaskOf(s, t).phase.Writing? then s
      else s.(tasks := s.tasks[t := TaskOf(s, t).(ctx := ctx)])
    case Ask(t) =>
      if TaskOf(s, t).phase.Resting? then Becomes(s, t, Waiting) else s
    case Grant(t, c) =>
      if !TaskOf(s, t).phase.Waiting? || c !in s.free then s
      else
        var ctx := TaskOf(s, t).ctx;
        var phase := if cache && Remembered(env, s, c, ctx) then Holding(c, ctx) else Writing(c, ctx);
        Becomes(s, t, phase).(free := s.free - {c})
    case Written(t) =>
      if !TaskOf(s, t).phase.Writing? then s
      else
        var Writing(c, ctx) := TaskOf(s, t).phase;
        Becomes(s, t, Holding(c, ctx)).(settings := s.settings[c := ValuesOf(env, ctx)],
                                        signatures := s.signatures[c := Signature(env, ctx)])
    case Refused(t) =>
      if !TaskOf(s, t).phase.Writing? then s
      else Becomes(s, t, Resting).(free := s.free + {TaskOf(s, t).phase.client})
    case Lost(t) =>
      if Busy(TaskOf(s, t).phase).None? then s
      else Becomes(s, t, Resting).(settings := s.settings - {Busy(TaskOf(s, t).phase).value})
    case Release(t) =>
      if !TaskOf(s, t).phase.Holding? then s
      else Becomes(s, t, Resting).(free := s.free + {TaskOf(s, t).phase.client})
  }

  function Run(env: Env, cache: bool, s: Pool, events: seq<Event>): Pool
    decreases |events|
  {
    if events == [] then s else Run(env, cache, Step(env, cache, s, events[0]), events[1..])
  }

  const EMPTY := Pool(map[], {}, map[], map[])

  /** A connection is free or leased to one task, never both. */
  ghost predicate Exclusive(s: Pool) {
    && (forall c :: c in s.free ==> c in s.settings)
    && (forall t :: Busy(TaskOf(s, t).phase).Some? ==>
          Busy(TaskOf(s, t).phase).value in s.settings && Busy(TaskOf(s, t).phase).value !in s.free)
    && (forall t, u :: t != u && Busy(TaskOf(s, t).phase).Some? ==>
       Busy(TaskOf(s, t).phase) != Busy(TaskOf(s, u).phase))
  }

  /** Whoever holds a connection has the settings of the context it was leased under. */
  ghost predicate Scoped(env: Env, s: Pool) {
    forall t :: TaskOf(s, t).phase.Holding? && TaskOf(s, t).phase.client in s.settings ==>
      s.settings[TaskOf(s, t).phase.client] == ValuesOf(env, TaskOf(s, t).phase.ctx)
  }

  /** A lease still under way is for its caller's current context. */
  ghost predicate Current(s: Pool) {
    forall t :: TaskOf(s, t).phase.Writing? ==> TaskOf(s, t).phase.ctx == TaskOf(s, t).ctx
  }

  ghost predicate Inv(env: Env, s: Pool) {
    Exclusive(s) && Current(s) && Scoped(env, s) && CacheHonest(env, s.settings, s.signatures)
  }

  predicate Concerns(e: Event, t: nat) { !e.Open? && !e.Close? && e.task == t }

  lemma {:induction false} OthersUnmoved(env: Env, cache: bool, s: Pool, e: Event)
    ensures forall t :: !Concerns(e, t) ==> TaskOf(Step(env, cache, s, e), t) == TaskOf(s, t)
  {
  }

  lemma {:induction false} StepExclusive(env: Env, cache: bool, s: Pool, e: Event)
    requires Exclusive(s)
    ensures Exclusive(Step(env, cache, s, e))
  {
    var r := Step(env, cache, s, e);
    OthersUnmoved(env, cache, s, e);
    forall t | Busy(TaskOf(r, t).phase).Some?
      ensures Busy(TaskOf(r, t).phase).value in r.settings && Busy(TaskOf(r, t).phase).value !in r.free
    {
      assert Busy(TaskOf(s, t).phase).Some? ==> Busy(TaskOf(s, t).phase).value in s.settings;
    }
    forall t, u | t != u && Busy(TaskOf(r, t).phase).Some?
      ensures Busy(TaskOf(r, t).phase) != Busy(TaskOf(r, u).phase)
    {
      StepApart(env, cache, s, e, t, u);
    }
  }

  lemma {:induction false} StepApart(env: Env, cache: bool, s: Pool, e: Event, t: nat, u: nat)
    requires Exclusive(s) && t != u && Busy(TaskOf(Step(env, cache, s, e), t).phase).Some?
    ensures Busy(TaskOf(Step(env, cache, s, e), t).phase) != Busy(TaskOf(Step(env, cache, s, e), u).phase)
  {
    OthersUnmoved(env, cache, s, e);
    assert Busy(TaskOf(s, t).phase).Some? ==> Busy(TaskOf(s, t).phase) != Busy(TaskOf(s, u).phase);
    assert Busy(TaskOf(s, u).phase).Some? ==> Busy(TaskOf(s, t).phase) != Busy(TaskOf(s, u).phase);
  }

  lemma {:induction false} StepCurrent(env: Env, cache: bool, s: Pool, e: Event)
    requires Current(s)
    ensures Current(Step(env, cache, s, e))
  {
    OthersUnmoved(env, cache, s, e);
    forall t | TaskOf(Step(env, cache, s, e), t).phase.Writing?
      ensures TaskOf(Step(env, cache, s, e), t).phase.ctx == TaskOf(Step(env, cache, s, e), t).ctx
    {
      assert TaskOf(s, t).phase.Writing? ==> TaskOf(s, t).phase.ctx == TaskOf(s, t).ctx;
    }
  }

  lemma {:induction false} StepHonest(env: Env, cache: bool, s: Pool, e: Event)
    requires Inv(env, s)
    ensures CacheHonest(env, Step(env, cache, s, e).settings, Step(env, cache, s, e).signatures)
  {
    if e.Written? && TaskOf(s, e.task).phase.Writing? {
      var Writing(c, ctx) := TaskOf(s, e.task).phase;
      WriteKeepsHonest(env, s.settings, s.signatures, c, ctx);
    }
  }

  lemma {:induction false} StepScoped(env: Env, cache: bool, s: Pool, e: Event)
    requires Inv(env, s)
    ensures Scoped(env, Step(env, cache, s, e))
  {
    var r := Step(env, cache, s, e);
    OthersUnmoved(env, cache, s, e);
    forall t | TaskOf(r, t).phase.Holding? && TaskOf(r, t).phase.client in r.settings
      ensures r.settings[TaskOf(r, t).phase.client] == ValuesOf(env, TaskOf(r, t).phase.ctx)
    {
      assert Busy(TaskOf(s, t).phase).Some? ==> Busy(TaskOf(s, t).phase).value in s.settings;
      assert e.Written? && t != e.task && Busy(TaskOf(s, t).phase).Some? ==>
          Busy(TaskOf(s, t).phase) != Busy(TaskOf(s, e.task).phase);
    }
  }

  lemma {:induction false} StepKeepsInv(env: Env, cache: bool, s: Pool, e: Event)
    requires Inv(env, s)
    ensures Inv(env, Step(env, cache, s, e))
  {
    StepExclusive(env, cache, s, e);
    StepCurrent(env, cache, s, e);
    StepHonest(env, cache, s, e);
    StepScoped(env, cache, s, e);
  }

  /** In every interleaving, every holder has its own context's settings to itself. */
  lemma {:induction false} RunKeepsInv(env: Env, cache: bool, s: Pool, events: seq<Event>)
    requires Inv(env, s)
    ensures Inv(env, Run(env, cache, s, events))
    decreases |events|
  {
    if events != [] {
      StepKeepsInv(env, cache, s, events[0]);
      RunKeepsInv(env, cache, Step(env, cache, s, events[0]), events[1..]);
    }
  }

  lemma {:induction false} HandOver(env: Env, s: Pool, e: Event, t: nat)
    requires Inv(env, s) && !TaskOf(s, t).phase.Holding? && TaskOf(Step(env, true, s, e), t).phase.Holding?
    ensures var r := Step(env, true, s, e);
            var c := TaskOf(r, t).phase.client;
            c in r.settings && r.settings[c] == ValuesOf(env, TaskOf(r, t).ctx)
  {
    var r := Step(env, true, s, e);
    StepKeepsInv(env, true, s, e);
    assert Busy(TaskOf(r, t).phase).Some?;
    assert TaskOf(r, t).phase.ctx == TaskOf(r, t).ctx;
  }

  /** Whenever a connection is handed over, after any run at all, it carries exactly
      what its caller's context at that moment asks for. */
  lemma {:induction false} HandedOverInScope(env: Env, events: seq<Event>, e: Event, t: nat)
    requires var s := Run(env, true, EMPTY, events);
             !TaskOf(s, t).phase.Holding? && TaskOf(Step(env, true, s, e), t).phase.Holding?
    ensures var s := Step(env, true, Run(env, true, EMPTY, events), e);
            var c := TaskOf(s, t).phase.client;
            c in s.settings && s.settings[c] == ValuesOf(env, TaskOf(s, t).ctx)
            && AsAsked(env, TaskOf(s, t).ctx, s.settings[c])
  {
    ValuesAreAsked(env, TaskOf(Step(env, true, Run(env, true, EMPTY, events), e), t).ctx);
    RunKeepsInv(env, true, EMPTY, events);
    HandOver(env, Run(env, true, EMPTY, events), e, t);
  }

  // ---- The cache against always writing --------------------------------------------------------

  predicate SkipsWrite(env: Env, s: Pool, e: Event) {
    e.Grant? && TaskOf(s, e.task).phase.Waiting? && e.client in s.free
      && Remembered(env, s, e.client, TaskOf(s, e.task).ctx)
  }

  /** The same events with every write the cache saved put back. */
  function WithWrites(env: Env, s: Pool, events: seq<Event>): seq<Event>
    decreases |events|
  {
    if events == [] then []
    else
      var e := events[0];
      var rest := WithWrites(env, Step(env, true, s, e), events[1..]);
      [e] + if SkipsWrite(env, s, e) then [Written(e.task)] + rest else rest
  }

  lemma {:induction false} RunSplit(env: Env, cache: bool, s: Pool, a: seq<Event>, b: seq<Event>)
    ensures Run(env, cache, s, a + b) == Run(env, cache, Run(env, cache, s, a), b)
    decreases |a|
  {
    if a == [] {
      assert a + b == b;
    } else {
      assert (a + b)[1..] == a[1..] + b;
      RunSplit(env, cache, Step(env, cache, s, a[0]), a[1..], b);
    }
  }

  /** A skipped write would have changed nothing. */
  lemma {:induction false} SkippedWriteIsIdle(env: Env, s: Pool, e: Event)
    requires Inv(env, s) && SkipsWrite(env, s, e)
    ensures Step(env, true, s, e) == Step(env, false, Step(env, false, s, e), Written(e.task))
  {
    var c, ctx := e.client, TaskOf(s, e.task).ctx;
    assert s.settings[c] == ValuesOf(env, ctx);
    assert s.settings[c := ValuesOf(env, ctx)] == s.settings;
    assert s.signatures[c := Signature(env, ctx)] == s.signatures;
    var begun := Step(env, false, s, e);
    assert begun.tasks[e.task := TaskOf(begun, e.task).(phase := Holding(c, ctx))] == Step(env, true, s, e).tasks;
  }

  lemma {:induction false} SameWithoutSkip(env: Env, s: Pool, e: Event)
    requires !SkipsWrite(env, s, e)
    ensures Step(env, true, s, e) == Step(env, false, s, e)
  {
  }

  /** Every run with the cache ends in the very state of a run that always writes. */
  lemma {:induction false} CacheRefinesAlwaysWriting(env: Env, s: Pool, events: seq<Event>)
    requires Inv(env, s)
    ensures Run(env, true, s, events) == Run(env, false, s, WithWrites(env, s, events))
    decreases |events|
  {
    if events != [] {
      var e := events[0];
      var s1 := Step(env, true, s, e);
      StepKeepsInv(env, true, s, e);
      CacheRefinesAlwaysWriting(env, s1, events[1..]);
      if SkipsWrite(env, s, e) {
        SkippedWriteIsIdle(env, s, e);
        TwoSteps(env, s, e, Written(e.task));
        RunSplit(env, false, s, [e, Written(e.task)], WithWrites(env, s1, events[1..]));
        Regroup([e], [Written(e.task)], WithWrites(env, s1, events[1..]));
        assert [e] + [Written(e.task)] == [e, Written(e.task)];
      } else {
        SameWithoutSkip(env, s, e);
        assert ([e] + WithWrites(env, s1, events[1..]))[1..] == WithWrites(env, s1, events[1..]);
      }
    }
  }

  lemma {:induction false} TwoSteps(env: Env, s: Pool, e: Event, f: Event)
    ensures Run(env, false, s, [e, f]) == Step(env, false, Step(env, false, s, e), f)
  {
    assert [e, f][1..] == [f] && [f][1..] == [];
    var s1 := Step(env, false, s, e);
    assert Run(env, false, s1, [f]) == Run(env, false, Step(env, false, s1, f), []);
  }

  function NotAWrite(): Event -> bool { (e: Event) => !e.Written? }

  lemma {:induction false} FilterStep(e: Event, rest: seq<Event>)
    ensures Filter(NotAWrite(), [e] + rest) == (if e.Written? then [] else [e]) + Filter(NotAWrite(), rest)
  {
    assert ([e] + rest)[1..] == rest;
  }

  lemma {:induction false} FilterSkipsWrite(e: Event, t: nat, rest: seq<Event>, events: seq<Event>)
    requires Filter(NotAWrite(), rest) == Filter(NotAWrite(), events)
    ensures Filter(NotAWrite(), [e] + rest) == Filter(NotAWrite(), [e] + events)
    ensures Filter(NotAWrite(), [e] + ([Written(t)] + rest)) == Filter(NotAWrite(), [e] + events)
  {
    FilterStep(e, rest);
    FilterStep(e, events);
    FilterStep(e, [Written(t)] + rest);
    FilterStep(Written(t), rest);
  }

  lemma {:induction false} WithWritesNext(env: Env, s: Pool, e: Event, events: seq<Event>)
    ensures var rest := WithWrites(env, Step(env, true, s, e), events);
            WithWrites(env, s, [e] + events) == [e] + if SkipsWrite(env, s, e) then [Written(e.task)] + rest else rest
  {
    assert ([e] + events)[1..] == events;
  }

  /** Nothing but writes is put back. */
  lemma {:induction false} OnlyWritesAdded(env: Env, s: Pool, events: seq<Event>)
    ensures Filter(NotAWrite(), WithWrites(env, s, events)) == Filter(NotAWrite(), events)
    decreases |events|
  {
    if events != [] {
      var e, s1 := events[0], Step(env, true, s, events[0]);
      OnlyWritesAdded(env, s1, events[1..]);
      WithWritesNext(env, s, e, events[1..]);
      FilterSkipsWrite(e, if e.Grant? then e.task else 0, WithWrites(env, s1, events[1..]), events[1..]);
      assert events == [e] + events[1..];
    }
  }
}
