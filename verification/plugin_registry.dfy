/** The central index of loaded plugins: agents, commands and skills are
    found by qualified or bare name, hooks by event. Locating and reading
    plugin directories is not modelled; loading takes the plugins found. */
module PluginRegistry {
  import opened Wrappers
  import opened OrderedMaps
  import opened Text
  import opened PluginLoader

  datatype Registry = Registry(
    plugins: OMap<Plugin>,
    agents: OMap<AgentDef>,
    commands: OMap<Command>,
    skills: OMap<Skill>,
    hooks: OMap<seq<Hook>>)

  const Empty: Registry := Registry([], [], [], [], [])

  // ---------------------------------------------------------------------
  // Storing a member under two names

  /** Stores `v` under its qualified name, replacing what was there, and
      under its bare name only if that name is still free. */
  function Register<V>(m: OMap<V>, full: string, bare: string, v: V): (r: OMap<V>)
    ensures UniqueKeys(m) ==> UniqueKeys(r)
    ensures Get(r, full) == Some(v)
    ensures bare != full ==> Get(r, bare) == if HasKey(m, bare) then Get(m, bare) else Some(v)
    ensures forall k :: k != full && k != bare ==> Get(r, k) == Get(m, k)
    ensures forall k :: HasKey(m, k) ==> HasKey(r, k)
  {
    var m1 := Put(m, full, v);
    var r := if HasKey(m1, bare) then m1 else Put(m1, bare, v);
    assert forall k :: HasKey(m, k) ==> HasKey(r, k) by {
      forall k | HasKey(m, k)
        ensures HasKey(r, k)
      {
        assert Get(m, k).Some?;
        assert Get(m1, k).Some?;
        assert Get(r, k).Some?;
      }
    }
    r
  }

  /** Registers each member in order. */
  function RegisterEach<V>(m: OMap<V>, vs: seq<V>, full: V -> string, bare: V -> string): (r: OMap<V>)
    decreases |vs|
    ensures UniqueKeys(m) ==> UniqueKeys(r)
  {
    if |vs| == 0 then m
    else RegisterEach(Register(m, full(vs[0]), bare(vs[0]), vs[0]), vs[1..], full, bare)
  }

  /** No member is stored under `k` by its qualified name. */
  predicate NoneNamed<V>(vs: seq<V>, full: V -> string, k: string) {
    forall i :: 0 <= i < |vs| ==> full(vs[i]) != k
  }

  /** Reference: the last member whose qualified name is `k`. */
  function LastWith<V>(vs: seq<V>, full: V -> string, k: string): Option<V>
    decreases |vs|
  {
    if |vs| == 0 then None
    else if full(vs[|vs| - 1]) == k then Some(vs[|vs| - 1])
    else LastWith(vs[..|vs| - 1], full, k)
  }

  /** Reference: the first member whose bare name is `k`. */
  function FirstWith<V>(vs: seq<V>, bare: V -> string, k: string): Option<V>
    decreases |vs|
  {
    if |vs| == 0 then None
    else if bare(vs[0]) == k then Some(vs[0])
    else FirstWith(vs[1..], bare, k)
  }

  /** `LastWith` read from the front: a later member overrides. */
  lemma {:induction false} LastWithCons<V>(vs: seq<V>, full: V -> string, k: string)
    requires |vs| > 0
    ensures LastWith(vs, full, k) ==
            if LastWith(vs[1..], full, k).Some? then LastWith(vs[1..], full, k)
            else if full(vs[0]) == k then Some(vs[0]) else None
    decreases |vs|
  {
    if |vs| > 1 {
      var n := |vs|;
      assert vs[1..][..n - 2] == vs[..n - 1][1..];
      assert vs[1..][n - 2] == vs[n - 1];
      LastWithCons(vs[..n - 1], full, k);
    }
  }

  lemma {:induction false} LastWithNone<V>(vs: seq<V>, full: V -> string, k: string)
    requires LastWith(vs, full, k).None?
    ensures NoneNamed(vs, full, k)
    decreases |vs|
  {
    if |vs| > 0 {
      LastWithCons(vs, full, k);
      LastWithNone(vs[1..], full, k);
      assert forall i :: 1 <= i < |vs| ==> vs[i] == vs[1..][i - 1];
    }
  }

  /** A key that is already taken and that no member claims by its
      qualified name keeps its value. */
  lemma {:induction false} KeepsTaken<V>(m: OMap<V>, vs: seq<V>, full: V -> string, bare: V -> string, k: string)
    requires HasKey(m, k) && NoneNamed(vs, full, k)
    ensures Get(RegisterEach(m, vs, full, bare), k) == Get(m, k)
    decreases |vs|
  {
    if |vs| > 0 {
      var m1 := Register(m, full(vs[0]), bare(vs[0]), vs[0]);
      assert full(vs[0]) != k;
      assert Get(m1, k) == Get(m, k);
      assert NoneNamed(vs[1..], full, k) by {
        forall i | 0 <= i < |vs| - 1
          ensures full(vs[1..][i]) != k
        {
          assert vs[1..][i] == vs[i + 1];
        }
      }
      KeepsTaken(m1, vs[1..], full, bare, k);
    }
  }

  /** Qualified names: the last member registered under a name wins. */
  lemma {:induction false} LastFullWins<V>(m: OMap<V>, vs: seq<V>, full: V -> string, bare: V -> string, k: string)
    requires LastWith(vs, full, k).Some?
    ensures Get(RegisterEach(m, vs, full, bare), k) == LastWith(vs, full, k)
    decreases |vs|
  {
    LastWithCons(vs, full, k);
    var m1 := Register(m, full(vs[0]), bare(vs[0]), vs[0]);
    if LastWith(vs[1..], full, k).Some? {
      LastFullWins(m1, vs[1..], full, bare, k);
    } else {
      LastWithNone(vs[1..], full, k);
      assert Get(m1, k) == Some(vs[0]);
      KeepsTaken(m1, vs[1..], full, bare, k);
    }
  }

  /** Bare names: on a name no member claims as its qualified name and that
      was free before, the first member with that bare name wins. */
  lemma {:induction false} FirstBareWins<V>(m: OMap<V>, vs: seq<V>, full: V -> string, bare: V -> string, k: string)
    requires !HasKey(m, k) && NoneNamed(vs, full, k)
    ensures Get(RegisterEach(m, vs, full, bare), k) == FirstWith(vs, bare, k)
    decreases |vs|
  {
    if |vs| > 0 {
      var m1 := Register(m, full(vs[0]), bare(vs[0]), vs[0]);
      assert full(vs[0]) != k;
      assert NoneNamed(vs[1..], full, k) by {
        forall i | 0 <= i < |vs| - 1
          ensures full(vs[1..][i]) != k
        {
          assert vs[1..][i] == vs[i + 1];
        }
      }
      if bare(vs[0]) == k {
        assert Get(m1, k) == Some(vs[0]);
        KeepsTaken(m1, vs[1..], full, bare, k);
      } else {
        assert Get(m1, k) == Get(m, k);
        FirstBareWins(m1, vs[1..], full, bare, k);
      }
    }
  }

  /** Every member can be found under both of its names afterwards. */
  lemma AllFindable<V>(m: OMap<V>, vs: seq<V>, full: V -> string, bare: V -> string, i: nat)
    requires i < |vs|
    ensures HasKey(RegisterEach(m, vs, full, bare), full(vs[i]))
    ensures HasKey(RegisterEach(m, vs, full, bare), bare(vs[i]))
  {
    assert vs == vs[..i] + vs[i..];
    EachAppend(m, vs[..i], vs[i..], full, bare);
    FirstFindable(RegisterEach(m, vs[..i], full, bare), vs[i..], full, bare);
  }

  /** Registering a concatenation is registering its halves in turn. */
  lemma {:induction false} EachAppend<V>(m: OMap<V>, a: seq<V>, b: seq<V>, full: V -> string, bare: V -> string)
    ensures RegisterEach(m, a + b, full, bare) == RegisterEach(RegisterEach(m, a, full, bare), b, full, bare)
    decreases |a|
  {
    if |a| == 0 {
      assert a + b == b;
    } else {
      assert (a + b)[0] == a[0] && (a + b)[1..] == a[1..] + b;
      EachAppend(Register(m, full(a[0]), bare(a[0]), a[0]), a[1..], b, full, bare);
    }
  }

  lemma FirstFindable<V>(m: OMap<V>, vs: seq<V>, full: V -> string, bare: V -> string)
    requires |vs| > 0
    ensures HasKey(RegisterEach(m, vs, full, bare), full(vs[0]))
    ensures HasKey(RegisterEach(m, vs, full, bare), bare(vs[0]))
  {
    var m1 := Register(m, full(vs[0]), bare(vs[0]), vs[0]);
    assert Get(m1, full(vs[0])).Some? && Get(m1, bare(vs[0])).Some?;
    StaysTaken(m1, vs[1..], full, bare, full(vs[0]));
    StaysTaken(m1, vs[1..], full, bare, bare(vs[0]));
  }

  /** Registering never removes a key. */
  lemma {:induction false} StaysTaken<V>(m: OMap<V>, vs: seq<V>, full: V -> string, bare: V -> string, k: string)
    requires HasKey(m, k)
    ensures HasKey(RegisterEach(m, vs, full, bare), k)
    decreases |vs|
  {
    if |vs| > 0 {
      var m1 := Register(m, full(vs[0]), bare(vs[0]), vs[0]);
      assert HasKey(m1, k);
      StaysTaken(m1, vs[1..], full, bare, k);
    }
  }

  // ---------------------------------------------------------------------
  // Hooks grouped by event

  /** `get_hooks`: the hooks of an event, or none for an unseen event. */
  function HooksOf(m: OMap<seq<Hook>>, event: string): (r: seq<Hook>)
    ensures !HasKey(m, event) ==> r == []
  {
    Get(m, event).GetOr([])
  }

  /** Reference: the hooks of a list that belong to `event`, in order. */
  function HooksFor(hs: seq<Hook>, event: string): (r: seq<Hook>)
    ensures forall i :: 0 <= i < |r| ==> r[i].event == event && r[i] in hs
  {
    if |hs| == 0 then []
    else (if hs[0].event == event then [hs[0]] else []) + HooksFor(hs[1..], event)
  }

  /** Appends a hook to its event's list, creating the list on first use. */
  function AddHook(m: OMap<seq<Hook>>, h: Hook): (r: OMap<seq<Hook>>)
    ensures UniqueKeys(m) ==> UniqueKeys(r)
    ensures HooksOf(r, h.event) == HooksOf(m, h.event) + [h]
    ensures forall e :: e != h.event ==> HooksOf(r, e) == HooksOf(m, e)
  {
    Put(m, h.event, HooksOf(m, h.event) + [h])
  }

  function AddHooks(m: OMap<seq<Hook>>, hs: seq<Hook>): (r: OMap<seq<Hook>>)
    decreases |hs|
    ensures UniqueKeys(m) ==> UniqueKeys(r)
  {
    if |hs| == 0 then m else AddHooks(AddHook(m, hs[0]), hs[1..])
  }

  /** One hook added in front of the rest. */
  lemma HooksStep(m: OMap<seq<Hook>>, h: Hook, rest: seq<Hook>, event: string, out: seq<Hook>)
    requires out == HooksOf(AddHook(m, h), event) + HooksFor(rest, event)
    ensures out == HooksOf(m, event) + HooksFor([h] + rest, event)
  {
    assert ([h] + rest)[1..] == rest;
    var a, head, b := HooksOf(m, event), if h.event == event then [h] else [], HooksFor(rest, event);
    assert HooksFor([h] + rest, event) == head + b;
    assert HooksOf(AddHook(m, h), event) == a + head;
    ConcatAssoc(a, head, b);
  }

  /** Each event's hooks are the earlier ones followed by the new ones of
      that event, in their original order. */
  lemma {:induction false} HooksGrouped(m: OMap<seq<Hook>>, hs: seq<Hook>, event: string)
    ensures HooksOf(AddHooks(m, hs), event) == HooksOf(m, event) + HooksFor(hs, event)
    decreases |hs|
  {
    if |hs| > 0 {
      HooksGrouped(AddHook(m, hs[0]), hs[1..], event);
      HooksStep(m, hs[0], hs[1..], event, HooksOf(AddHooks(m, hs), event));
      assert [hs[0]] + hs[1..] == hs;
    } else {
      assert HooksOf(m, event) + [] == HooksOf(m, event);
    }
  }

  // ---------------------------------------------------------------------
  // Registering plugins

  function AgentFull(a: AgentDef): string { a.FullName() }
  function AgentBare(a: AgentDef): string { a.name }
  function CommandFull(c: Command): string { c.FullName() }
  function CommandBare(c: Command): string { c.name }
  function SkillBare(s: Skill): string { s.name }

  /** Skills are keyed by the registering plugin's name, even when that
      name is empty. */
  function SkillKeyIn(plugin: string): Skill -> string {
    (s: Skill) => plugin + ":" + s.name
  }

  /** Registers a plugin and every agent, command, skill and hook it has. */
  function AddPlugin(reg: Registry, p: Plugin): (r: Registry)
    ensures Get(r.plugins, p.name) == Some(p)
    ensures forall e :: HooksOf(r.hooks, e) == HooksOf(reg.hooks, e) + HooksFor(p.hooks, e)
  {
    var hooks := AddHooks(reg.hooks, p.hooks);
    assert forall e :: HooksOf(hooks, e) == HooksOf(reg.hooks, e) + HooksFor(p.hooks, e) by {
      forall e
        ensures HooksOf(hooks, e) == HooksOf(reg.hooks, e) + HooksFor(p.hooks, e)
      {
        HooksGrouped(reg.hooks, p.hooks, e);
      }
    }
    Registry(
      Put(reg.plugins, p.name, p),
      RegisterEach(reg.agents, p.agents, AgentFull, AgentBare),
      RegisterEach(reg.commands, p.commands, CommandFull, CommandBare),
      RegisterEach(reg.skills, p.skills, SkillKeyIn(p.name), SkillBare),
      hooks)
  }

  /** Every agent of a registered plugin is found by either of its names. */
  lemma AgentsFindable(reg: Registry, p: Plugin, i: nat)
    requires i < |p.agents|
    ensures GetAgent(AddPlugin(reg, p), p.agents[i].FullName()).Some?
    ensures GetAgent(AddPlugin(reg, p), p.agents[i].name).Some?
  {
    AllFindable(reg.agents, p.agents, AgentFull, AgentBare, i);
  }

  /** An agent's qualified name leads to the last agent of the plugin that
      has it. */
  lemma AgentFullNameLastWins(reg: Registry, p: Plugin, k: string)
    requires LastWith(p.agents, AgentFull, k).Some?
    ensures GetAgent(AddPlugin(reg, p), k) == LastWith(p.agents, AgentFull, k)
  {
    LastFullWins(reg.agents, p.agents, AgentFull, AgentBare, k);
  }

  /** A bare agent name not already taken leads to the first agent with it. */
  lemma AgentBareNameFirstWins(reg: Registry, p: Plugin, k: string)
    requires !HasKey(reg.agents, k) && NoneNamed(p.agents, AgentFull, k)
    ensures GetAgent(AddPlugin(reg, p), k) == FirstWith(p.agents, AgentBare, k)
  {
    FirstBareWins(reg.agents, p.agents, AgentFull, AgentBare, k);
  }

  /** Commands follow the same two rules. */
  lemma CommandNames(reg: Registry, p: Plugin, k: string)
    ensures LastWith(p.commands, CommandFull, k).Some? ==>
            GetCommand(AddPlugin(reg, p), k) == LastWith(p.commands, CommandFull, k)
    ensures !HasKey(reg.commands, k) && NoneNamed(p.commands, CommandFull, k) ==>
            GetCommand(AddPlugin(reg, p), k) == FirstWith(p.commands, CommandBare, k)
  {
    if LastWith(p.commands, CommandFull, k).Some? {
      LastFullWins(reg.commands, p.commands, CommandFull, CommandBare, k);
    }
    if !HasKey(reg.commands, k) && NoneNamed(p.commands, CommandFull, k) {
      FirstBareWins(reg.commands, p.commands, CommandFull, CommandBare, k);
    }
  }

  /** Skills are found under `plugin:name`, the last one winning. */
  lemma SkillKeyLastWins(reg: Registry, p: Plugin, k: string)
    requires LastWith(p.skills, SkillKeyIn(p.name), k).Some?
    ensures GetSkill(AddPlugin(reg, p), k) == LastWith(p.skills, SkillKeyIn(p.name), k)
  {
    LastFullWins(reg.skills, p.skills, SkillKeyIn(p.name), SkillBare, k);
  }

  /** Registers the plugins in order. */
  function LoadPlugins(reg: Registry, ps: seq<Plugin>): Registry
    decreases |ps|
  {
    if |ps| == 0 then reg else LoadPlugins(AddPlugin(reg, ps[0]), ps[1..])
  }

  /** `reload`: empties the registry, then loads the plugins found. */
  function Reload(reg: Registry, ps: seq<Plugin>): (r: Registry)
    ensures r == LoadPlugins(Empty, ps)
  {
    LoadPlugins(Empty, ps)
  }

  /** Nothing of the old registry survives a reload. */
  lemma ReloadForgets(a: Registry, b: Registry, ps: seq<Plugin>)
    ensures Reload(a, ps) == Reload(b, ps)
  {
  }

  /** Reloading with no plugins found leaves an empty registry. */
  lemma ReloadNothing(reg: Registry, e: string)
    ensures Reload(reg, []).agents == [] && HooksOf(Reload(reg, []).hooks, e) == []
  {
  }

  // ---------------------------------------------------------------------
  // Lookups and listings

  function GetPlugin(reg: Registry, name: string): Option<Plugin> { Get(reg.plugins, name) }
  function GetAgent(reg: Registry, name: string): Option<AgentDef> { Get(reg.agents, name) }
  function GetCommand(reg: Registry, name: string): Option<Command> { Get(reg.commands, name) }
  function GetSkill(reg: Registry, name: string): Option<Skill> { Get(reg.skills, name) }
  function GetHooks(reg: Registry, event: string): seq<Hook> { HooksOf(reg.hooks, event) }

  /** No two values share a key. */
  predicate Distinct<V>(vs: seq<V>, key: V -> string) {
    forall i, j :: 0 <= i < j < |vs| ==> key(vs[i]) != key(vs[j])
  }

  /** The keys of a list of values. */
  function KeySet<V>(vs: seq<V>, key: V -> string): (r: set<string>)
    ensures forall i :: 0 <= i < |vs| ==> key(vs[i]) in r
  {
    if |vs| == 0 then {} else {key(vs[0])} + KeySet(vs[1..], key)
  }

  /** The values in order, skipping any whose key was seen before. */
  function Dedup<V>(vs: seq<V>, key: V -> string, seen: set<string>): (r: seq<V>)
    decreases |vs|
    ensures forall i :: 0 <= i < |r| ==> r[i] in vs && key(r[i]) !in seen
  {
    if |vs| == 0 then []
    else if key(vs[0]) in seen then Dedup(vs[1..], key, seen)
    else [vs[0]] + Dedup(vs[1..], key, seen + {key(vs[0])})
  }

  /** Each key appears once in the listing, and every value's key appears
      in it unless it was seen before. */
  lemma {:induction false} DedupKeys<V>(vs: seq<V>, key: V -> string, seen: set<string>)
    ensures Distinct(Dedup(vs, key, seen), key)
    ensures forall v :: v in vs ==> key(v) in seen + KeySet(Dedup(vs, key, seen), key)
    decreases |vs|
  {
    if |vs| > 0 {
      var tail := vs[1..];
      assert forall v :: v in vs ==> v == vs[0] || v in tail;
      if key(vs[0]) in seen {
        DedupKeys(tail, key, seen);
      } else {
        var seen' := seen + {key(vs[0])};
        var rest := Dedup(tail, key, seen');
        DedupKeys(tail, key, seen');
        var r := [vs[0]] + rest;
        assert r[1..] == rest;
        assert KeySet(r, key) == {key(vs[0])} + KeySet(rest, key);
        assert forall i :: 0 <= i < |rest| ==> key(rest[i]) != key(vs[0]);
        assert forall i :: 1 <= i < |r| ==> r[i] == rest[i - 1];
      }
    }
  }

  /** Values whose keys are already distinct pass through unchanged. */
  lemma {:induction false} DedupDistinct<V>(vs: seq<V>, key: V -> string, seen: set<string>)
    requires Distinct(vs, key)
    requires forall i :: 0 <= i < |vs| ==> key(vs[i]) !in seen
    ensures Dedup(vs, key, seen) == vs
    decreases |vs|
  {
    if |vs| > 0 {
      var tail := vs[1..];
      var seen' := seen + {key(vs[0])};
      assert forall i :: 0 <= i < |tail| ==> tail[i] == vs[i + 1];
      assert forall i :: 0 <= i < |tail| ==> key(tail[i]) !in seen';
      DedupDistinct(tail, key, seen');
      assert [vs[0]] + tail == vs;
    }
  }

  /** Listing twice is listing once. */
  lemma DedupIdempotent<V>(vs: seq<V>, key: V -> string)
    ensures Dedup(Dedup(vs, key, {}), key, {}) == Dedup(vs, key, {})
  {
    DedupKeys(vs, key, {});
    DedupDistinct(Dedup(vs, key, {}), key, {});
  }

  function SkillKey(s: Skill): string { s.plugin + ":" + s.name }

  /** `list_agents`: each qualified name once, in first-seen order. */
  function ListAgents(reg: Registry): seq<AgentDef> { Dedup(Values(reg.agents), AgentFull, {}) }
  function ListCommands(reg: Registry): seq<Command> { Dedup(Values(reg.commands), CommandFull, {}) }
  /** `list_skills` keys by the skill's own plugin field. */
  function ListSkills(reg: Registry): seq<Skill> { Dedup(Values(reg.skills), SkillKey, {}) }
  function ListPlugins(reg: Registry): seq<Plugin> { Values(reg.plugins) }

  /** `list_agents` names each qualified name once and misses none. */
  lemma ListAgentsOnce(reg: Registry)
    ensures Distinct(ListAgents(reg), AgentFull)
    ensures forall a :: a in Values(reg.agents) ==> a.FullName() in KeySet(ListAgents(reg), AgentFull)
  {
    DedupKeys(Values(reg.agents), AgentFull, {});
  }

  /** `list_commands` likewise. */
  lemma ListCommandsOnce(reg: Registry)
    ensures Distinct(ListCommands(reg), CommandFull)
    ensures forall c :: c in Values(reg.commands) ==> c.FullName() in KeySet(ListCommands(reg), CommandFull)
  {
    DedupKeys(Values(reg.commands), CommandFull, {});
  }

  /** `list_skills` likewise, by the skill's own `plugin:name`. */
  lemma ListSkillsOnce(reg: Registry)
    ensures Distinct(ListSkills(reg), SkillKey)
    ensures forall s :: s in Values(reg.skills) ==> SkillKey(s) in KeySet(ListSkills(reg), SkillKey)
  {
    DedupKeys(Values(reg.skills), SkillKey, {});
  }
}
