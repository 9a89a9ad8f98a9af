/** src/api/gene_templates.py: templates, the adapter instances made from them, the capabilities those
    instances register, and the file that holds everything but the built-in templates.

    Making an instance waits for the adapter in the middle, so it is two steps. Identifiers made from a
    uuid come with the step and are fresh. */
module GeneStores {
  import opened Options

  datatype Param = Param(name: string, required: bool, hasDefault: bool)

  datatype Template = Template(name: string, adapterType: string, builtin: bool, params: seq<Param>,
                               capabilities: seq<string>, createdAt: int)

  datatype Instance = Instance(templateId: string, name: string, adapterType: string, capabilities: seq<string>)

  datatype Capability = Capability(instance: string, adapterName: string, adapterType: string, description: string)

  /** The persisted file. */
  datatype Saved = Saved(custom: map<string, Template>, instances: map<string, Instance>,
                         capabilities: map<string, Capability>)

  /** A call of instantiate_template that waits for its adapter, holding the template it found. */
  datatype Job = Job(templateId: string, template: Template, name: string, autoConfigure: bool)

  datatype State = State(templates: map<string, Template>, instances: map<string, Instance>,
                         capabilities: map<string, Capability>, disk: Saved, inflight: multiset<Job>)

  datatype Step =
    | CreateTemplate(id: string, name: string, adapterType: string, params: seq<Param>, capabilities: seq<string>, now: int)
    | DeleteTemplate(id: string)
    | BeginInstance(id: string, given: set<string>, name: string, autoConfigure: bool)
    | AdapterFailed(job: Job)
    | EndInstance(job: Job, instance: string, capIds: seq<string>)
    | DeleteInstance(instance: string)
    | Restart(now: int)

  const NOTHING := Saved(map[], map[], map[])

  // ----- Saving and loading -----

  function Custom(templates: map<string, Template>): map<string, Template> {
    map id | id in templates && !templates[id].builtin :: templates[id]
  }

  /** _save_persisted */
  function Save(s: State): Saved {
    Saved(Custom(s.templates), s.instances, s.capabilities)
  }

  function Stamped(presets: map<string, Template>, now: int): map<string, Template> {
    map id | id in presets :: presets[id].(createdAt := now)
  }

  /** _init in a new process */
  function Load(presets: map<string, Template>, disk: Saved, now: int): State {
    State(Stamped(presets, now) + disk.custom, disk.instances, disk.capabilities, disk, multiset{})
  }

  // ----- Steps -----

  predicate Distinct(ids: seq<string>) {
    forall i, j :: 0 <= i < j < |ids| ==> ids[i] != ids[j]
  }

  predicate MissingParam(template: Template, given: set<string>) {
    exists i :: 0 <= i < |template.params|
                && template.params[i].required && template.params[i].name !in given && !template.params[i].hasDefault
  }

  /** What a call may be given: uuids not in use, one for each capability to register. */
  predicate FreshIds(s: State, job: Job, instance: string, capIds: seq<string>) {
    && instance !in s.instances
    && Distinct(capIds) && (forall i :: 0 <= i < |capIds| ==> capIds[i] !in s.capabilities)
    && |capIds| == if job.autoConfigure then |job.template.capabilities| else 0
  }

  /** The name the caller gave, or one made from the template's and the end of the instance's id. */
  function InstanceName(job: Job, instance: string): string {
    if job.name != "" then job.name
    else job.template.name + " (" + (if |instance| <= 4 then instance else instance[|instance| - 4..]) + ")"
  }

  lemma NameOnFields(job: Job, instance: string)
    ensures job.name != "" ==> InstanceName(job, instance) == job.name
    ensures job.name == "" && |instance| >= 4 ==>
              InstanceName(job, instance) == job.template.name + " (" + instance[|instance| - 4..] + ")"
    ensures job.name == "" && |instance| < 4 ==> InstanceName(job, instance) == job.template.name + " (" + instance + ")"
  {
    assert |instance| == 4 ==> instance[|instance| - 4..] == instance;
  }

  function Entry(job: Job, instance: string, k: nat): Capability
    requires k < |job.template.capabilities|
  {
    Capability(instance, InstanceName(job, instance), job.template.adapterType, job.template.capabilities[k])
  }

  /** _register_capabilities: one entry for each of the first capabilities of the job's template. */
  function Registered(capabilities: map<string, Capability>, job: Job, instance: string, capIds: seq<string>)
    : map<string, Capability>
    requires |capIds| <= |job.template.capabilities|
  {
    if |capIds| == 0 then capabilities
    else
      var k := |capIds| - 1;
      Registered(capabilities, job, instance, capIds[..k])
        [capIds[k] := Entry(job, instance, k)]
  }

  function Written(s: State): State {
    s.(disk := Save(s))
  }

  function Ended(s: State, job: Job, instance: string, capIds: seq<string>): State
    requires FreshIds(s, job, instance, capIds)
  {
    var made := Instance(job.templateId, InstanceName(job, instance), job.template.adapterType, capIds);
    Written(s.(capabilities := Registered(s.capabilities, job, instance, capIds),
               instances := s.instances[instance := made], inflight := s.inflight - multiset{job}))
  }

  function Without(capabilities: map<string, Capability>, instance: string): map<string, Capability> {
    map c | c in capabilities && capabilities[c].instance != instance :: capabilities[c]
  }

  /** A request that is refused, or a step that is not possible, leaves the state as it is. */
  function Next(presets: map<string, Template>, s: State, step: Step): State {
    match step
    case CreateTemplate(id, name, adapterType, params, capabilities, now) =>
      if id in s.templates then s  // 409
      else Written(s.(templates := s.templates[id := Template(name, adapterType, false, params, capabilities, now)]))
    case DeleteTemplate(id) =>
      if id !in s.templates || s.templates[id].builtin then s  // 404, 403
      else Written(s.(templates := s.templates - {id}))
    case BeginInstance(id, given, name, autoConfigure) =>
      if id !in s.templates || MissingParam(s.templates[id], given) then s  // 404, 400
      else s.(inflight := s.inflight + multiset{Job(id, s.templates[id], name, autoConfigure)})
    case AdapterFailed(job) => s.(inflight := s.inflight - multiset{job})  // 500
    case EndInstance(job, instance, capIds) =>
      if job !in s.inflight || !FreshIds(s, job, instance, capIds) then s else Ended(s, job, instance, capIds)
    case DeleteInstance(instance) =>
      if instance !in s.instances then s  // 404
      else Written(s.(capabilities := Without(s.capabilities, instance), instances := s.instances - {instance}))
    case Restart(now) => Load(presets, s.disk, now)
  }

  function Run(presets: map<string, Template>, boot: int, steps: seq<Step>): State {
    if |steps| == 0 then Load(presets, NOTHING, boot)
    else Next(presets, Run(presets, boot, steps[..|steps| - 1]), steps[|steps| - 1])
  }

  // ----- The two-way index -----

  /** The list an instance carries is, without repetition, the capabilities that point back at it. */
  ghost predicate Indexed(s: State, instance: string)
    requires instance in s.instances
  {
    && Distinct(s.instances[instance].capabilities)
    && (forall c :: c in s.instances[instance].capabilities <==>
                      c in s.capabilities && s.capabilities[c].instance == instance)
  }

  ghost predicate IndexInv(s: State) {
    && (forall i :: i in s.instances ==> Indexed(s, i))
    && (forall c :: c in s.capabilities ==> s.capabilities[c].instance in s.instances)
  }

  lemma {:induction false} RegisteredKeys(capabilities: map<string, Capability>, job: Job, instance: string, capIds: seq<string>)
    requires |capIds| <= |job.template.capabilities|
    ensures Registered(capabilities, job, instance, capIds).Keys == capabilities.Keys + (set c | c in capIds)
  {
    if |capIds| == 0 {
    } else {
      var front := capIds[..|capIds| - 1];
      RegisteredKeys(capabilities, job, instance, front);
      assert capIds == front + [capIds[|capIds| - 1]];
    }
  }

  /** With distinct ids, each of them gets its entry and the other capabilities stay. */
  lemma {:induction false} RegisteredEntry(capabilities: map<string, Capability>, job: Job, instance: string,
                                           capIds: seq<string>, c: string)
    requires |capIds| <= |job.template.capabilities| && Distinct(capIds)
    requires c in Registered(capabilities, job, instance, capIds)
    ensures c !in capIds ==> c in capabilities && Registered(capabilities, job, instance, capIds)[c] == capabilities[c]
    ensures forall k :: 0 <= k < |capIds| && capIds[k] == c ==>
              Registered(capabilities, job, instance, capIds)[c]
              == Capability(instance, InstanceName(job, instance), job.template.adapterType, job.template.capabilities[k])
  {
    if |capIds| == 0 {
    } else {
      var front, last := capIds[..|capIds| - 1], capIds[|capIds| - 1];
      assert capIds == front + [last];
      if c != last {
        RegisteredEntry(capabilities, job, instance, front, c);
      }
    }
  }

  lemma EndKeepsIndex(s: State, job: Job, instance: string, capIds: seq<string>)
    requires IndexInv(s) && FreshIds(s, job, instance, capIds)
    ensures IndexInv(Ended(s, job, instance, capIds))
  {
    var t := Ended(s, job, instance, capIds);
    RegisteredKeys(s.capabilities, job, instance, capIds);
    forall c | c in t.capabilities
      ensures if c in capIds then t.capabilities[c].instance == instance
              else c in s.capabilities && t.capabilities[c] == s.capabilities[c]
    {
      RegisteredEntry(s.capabilities, job, instance, capIds, c);
    }
    forall i | i in t.instances
      ensures Indexed(t, i)
    {
      if i != instance {
        assert Indexed(s, i);
      }
    }
  }

  lemma DeleteKeepsIndex(s: State, instance: string)
    requires IndexInv(s)
    ensures IndexInv(s.(capabilities := Without(s.capabilities, instance), instances := s.instances - {instance}))
  {
  }

  // ----- Built-in templates, and the file -----

  predicate AllBuiltin(presets: map<string, Template>) {
    forall id :: id in presets ==> presets[id].builtin
  }

  /** The built-in templates are the presets, as shipped but for the time stamp. */
  predicate BuiltinInv(presets: map<string, Template>, s: State) {
    && (forall id :: id in presets ==>
                       id in s.templates && s.templates[id] == presets[id].(createdAt := s.templates[id].createdAt))
    && (forall id :: id in s.templates && s.templates[id].builtin ==> id in presets)
  }

  ghost predicate StoreInv(presets: map<string, Template>, s: State) {
    IndexInv(s) && BuiltinInv(presets, s) && s.disk == Save(s)
  }

  lemma CustomIsApart(presets: map<string, Template>, s: State, now: int)
    requires AllBuiltin(presets) && BuiltinInv(presets, s)
    ensures Custom(Stamped(presets, now) + Custom(s.templates)) == Custom(s.templates)
    ensures (Stamped(presets, now) + Custom(s.templates)).Keys == s.templates.Keys
    ensures forall id :: id in s.templates ==>
                           (Stamped(presets, now) + Custom(s.templates))[id]
                           == if id in presets then presets[id].(createdAt := now) else s.templates[id]
  {
  }

  /** Saving and then loading in a new process restores the state: instances, capabilities and custom
      templates exactly, the built-in templates but for their time stamps. Only calls in flight are lost. */
  lemma LoadRestores(presets: map<string, Template>, s: State, now: int)
    requires AllBuiltin(presets) && BuiltinInv(presets, s)
    ensures var t := Load(presets, Save(s), now);
            && t.instances == s.instances && t.capabilities == s.capabilities && Save(t) == Save(s)
            && t.templates.Keys == s.templates.Keys
            && (forall id :: id in s.templates ==>
                  t.templates[id] == if s.templates[id].builtin then s.templates[id].(createdAt := now) else s.templates[id])
  {
    CustomIsApart(presets, s, now);
  }

  lemma NextKeepsBuiltin(presets: map<string, Template>, s: State, step: Step)
    requires AllBuiltin(presets) && BuiltinInv(presets, s) && s.disk == Save(s)
    ensures BuiltinInv(presets, Next(presets, s, step)) && Next(presets, s, step).disk == Save(Next(presets, s, step))
  {
    if step.Restart? {
      CustomIsApart(presets, s, step.now);
    }
  }

  lemma SameIndex(s: State, t: State)
    requires IndexInv(s) && t.instances == s.instances && t.capabilities == s.capabilities
    ensures IndexInv(t)
  {
  }

  lemma NextKeepsIndex(presets: map<string, Template>, s: State, step: Step)
    requires IndexInv(s) && s.disk == Save(s)
    ensures IndexInv(Next(presets, s, step))
  {
    var t := Next(presets, s, step);
    if t.instances == s.instances && t.capabilities == s.capabilities {
      SameIndex(s, t);
    } else if step.EndInstance? {
      EndKeepsIndex(s, step.job, step.instance, step.capIds);
    } else {
      DeleteKeepsIndex(s, step.instance);
      SameIndex(s.(capabilities := Without(s.capabilities, step.instance), instances := s.instances - {step.instance}), t);
    }
  }

  /** In every reachable state, restarts included. */
  lemma {:induction false} RunKeepsInv(presets: map<string, Template>, boot: int, steps: seq<Step>)
    requires AllBuiltin(presets)
    ensures StoreInv(presets, Run(presets, boot, steps))
  {
    if |steps| == 0 {
    } else {
      var front := steps[..|steps| - 1];
      RunKeepsInv(presets, boot, front);
      NextKeepsBuiltin(presets, Run(presets, boot, front), steps[|steps| - 1]);
      NextKeepsIndex(presets, Run(presets, boot, front), steps[|steps| - 1]);
    }
  }

  /** So a restart at any point of any run can be told only by the time stamps of the built-in
      templates, and by the calls it cut off. */
  lemma RestartRestores(presets: map<string, Template>, boot: int, steps: seq<Step>, now: int)
    requires AllBuiltin(presets)
    ensures var s := Run(presets, boot, steps);
            var t := Run(presets, boot, steps + [Restart(now)]);
            && t.instances == s.instances && t.capabilities == s.capabilities && t.disk == s.disk
            && t.templates.Keys == s.templates.Keys
            && (forall id :: id in s.templates ==>
                  t.templates[id] == if id in presets then presets[id].(createdAt := now) else s.templates[id])
  {
    RunKeepsInv(presets, boot, steps);
    assert (steps + [Restart(now)])[..|steps|] == steps;
    LoadRestores(presets, Run(presets, boot, steps), now);
  }

  // ----- The code -----

  datatype Refusal = NotFound | BadRequest | Forbidden | Conflict

  class GeneStore {
    const presets: map<string, Template>
    var templates: map<string, Template>
    var instances: map<string, Instance>
    var capabilities: map<string, Capability>
    var disk: Saved
    ghost var inflight: multiset<Job>

    ghost function Snapshot(): State
      reads this
    {
      State(templates, instances, capabilities, disk, inflight)
    }

    /** _init */
    constructor (presets: map<string, Template>, disk: Saved, now: int)
      ensures this.presets == presets && Snapshot() == Load(presets, disk, now)
      ensures instances == disk.instances && capabilities == disk.capabilities && this.disk == disk
      ensures templates == (map id | id in presets :: presets[id].(createdAt := now)) + disk.custom
    {
      this.presets := presets;
      templates := (map id | id in presets :: presets[id].(createdAt := now)) + disk.custom;
      instances, capabilities := disk.instances, disk.capabilities;
      this.disk := disk;
      inflight := multiset{};
    }

    method SavePersisted()
      modifies this`disk
      ensures Snapshot() == Written(old(Snapshot()))
      ensures disk == Saved(map id | id in templates && !templates[id].builtin :: templates[id], instances, capabilities)
    {
      disk := Saved(map id | id in templates && !templates[id].builtin :: templates[id], instances, capabilities);
    }

    method CreateCustomTemplate(id: string, name: string, adapterType: string, params: seq<Param>,
                                caps: seq<string>, now: int)
      returns (refused: Option<Refusal>)
      modifies this
      ensures Snapshot() == Next(presets, old(Snapshot()), CreateTemplate(id, name, adapterType, params, caps, now))
      ensures refused == if id in old(templates) then Some(Conflict) else None
      ensures refused == None ==>
                && templates == old(templates)[id := Template(name, adapterType, false, params, caps, now)]
                && id in disk.custom && disk.custom[id] == templates[id]
      ensures refused.Some? ==> templates == old(templates) && disk == old(disk)
      ensures instances == old(instances) && capabilities == old(capabilities)
    {
      if id in templates {
        return Some(Conflict);
      }
      templates := templates[id := Template(name, adapterType, false, params, caps, now)];
      SavePersisted();
      refused := None;
    }

    method DeleteCustomTemplate(id: string) returns (refused: Option<Refusal>)
      modifies this
      ensures Snapshot() == Next(presets, old(Snapshot()), DeleteTemplate(id))
      ensures refused == if id !in old(templates) then Some(NotFound)
                         else if old(templates)[id].builtin then Some(Forbidden) else None
      ensures refused == None ==> templates == old(templates) - {id} && id !in disk.custom
      ensures refused.Some? ==> templates == old(templates) && disk == old(disk)
      ensures instances == old(instances) && capabilities == old(capabilities)
    {
      if id !in templates {
        return Some(NotFound);
      }
      if templates[id].builtin {
        return Some(Forbidden);
      }
      templates := templates - {id};
      SavePersisted();
      refused := None;
    }

    /** instantiate_template up to its await */
    method BeginInstantiate(id: string, given: set<string>, name: string, autoConfigure: bool)
      returns (refused: Option<Refusal>)
      modifies this
      ensures Snapshot() == Next(presets, old(Snapshot()), BeginInstance(id, given, name, autoConfigure))
      ensures refused == if id !in old(templates) then Some(NotFound)
                         else if MissingParam(old(templates)[id], given) then Some(BadRequest) else None
      ensures refused == Some(BadRequest) <==>
                && id in old(templates)
                && exists p :: p in old(templates)[id].params && p.required && !p.hasDefault && p.name !in given
      ensures refused == None ==> inflight == old(inflight) + multiset{Job(id, old(templates)[id], name, autoConfigure)}
      ensures refused.Some? ==> inflight == old(inflight)
      ensures templates == old(templates) && instances == old(instances) && capabilities == old(capabilities)
    {
      if id !in templates {
        return Some(NotFound);
      }
      var template := templates[id];
      for k := 0 to |template.params|
        invariant forall i :: 0 <= i < k ==>
                    !(template.params[i].required && template.params[i].name !in given && !template.params[i].hasDefault)
      {
        var p := template.params[k];
        if p.required && p.name !in given && !p.hasDefault {
          return Some(BadRequest);
        }
      }
      inflight := inflight + multiset{Job(id, template, name, autoConfigure)};
      refused := None;
    }

    /** _register_capabilities; `uuids` are the identifiers it makes */
    method RegisterCapabilities(job: Job, instance: string, uuids: seq<string>) returns (capIds: seq<string>)
      requires |uuids| == |job.template.capabilities|
      modifies this`capabilities
      ensures capIds == uuids && capabilities == Registered(old(capabilities), job, instance, uuids)
      ensures Distinct(uuids) ==>
                forall k :: 0 <= k < |uuids| ==>
                  && uuids[k] in capabilities
                  && capabilities[uuids[k]]
                     == Capability(instance, InstanceName(job, instance), job.template.adapterType, job.template.capabilities[k])
    {
      capIds := [];
      for k := 0 to |uuids|
        invariant capIds == uuids[..k]
        invariant capabilities == Registered(old(capabilities), job, instance, uuids[..k])
      {
        var entry := Capability(instance, InstanceName(job, instance), job.template.adapterType, job.template.capabilities[k]);
        assert entry == Entry(job, instance, k);
        assert uuids[..k + 1][..k] == uuids[..k];
        capabilities := capabilities[uuids[k] := entry];
        capIds := capIds + [uuids[k]];
      }
      assert uuids[..|uuids|] == uuids;
      RegisteredKeys(old(capabilities), job, instance, uuids);
      if Distinct(uuids) {
        forall k | 0 <= k < |uuids|
          ensures capabilities[uuids[k]]
               == Capability(instance, InstanceName(job, instance), job.template.adapterType, job.template.capabilities[k])
        {
          RegisteredEntry(old(capabilities), job, instance, uuids, uuids[k]);
        }
      }
    }

    /** instantiate_template after its await, when the adapter is configured */
    method EndInstantiate(job: Job, instance: string, uuids: seq<string>) returns (made: Instance)
      requires job in inflight && FreshIds(Snapshot(), job, instance, uuids)
      modifies this
      ensures Snapshot() == Next(presets, old(Snapshot()), EndInstance(job, instance, uuids))
      ensures made == Instance(job.templateId, InstanceName(job, instance), job.template.adapterType, uuids)
      ensures instances == old(instances)[instance := made] && templates == old(templates)
      ensures forall k :: 0 <= k < |uuids| ==>
                && uuids[k] in capabilities
                && capabilities[uuids[k]]
                   == Capability(instance, made.name, made.adapterType, job.template.capabilities[k])
      ensures disk.instances == instances && disk.capabilities == capabilities
    {
      var capIds: seq<string> := [];
      if job.autoConfigure {
        capIds := RegisterCapabilities(job, instance, uuids);
      }
      assert capIds == uuids;
      made := Instance(job.templateId, InstanceName(job, instance), job.template.adapterType, capIds);
      instances := instances[instance := made];
      inflight := inflight - multiset{job};
      SavePersisted();
    }

    method DropCapabilities(doomed: set<string>)
      modifies this`capabilities
      ensures capabilities == old(capabilities) - doomed
    {
      var todo := doomed;
      while todo != {}
        invariant todo <= doomed
        invariant capabilities == old(capabilities) - (doomed - todo)
        decreases todo
      {
        var c :| c in todo;
        capabilities := capabilities - {c};
        todo := todo - {c};
      }
    }

    /** delete_instance: what it reports as removed is the number of capabilities the instance listed. */
    method RemoveInstance(instance: string) returns (removed: Option<nat>)
      requires IndexInv(Snapshot())
      modifies this
      ensures Snapshot() == Next(presets, old(Snapshot()), DeleteInstance(instance))
      ensures removed == if instance in old(instances) then Some(|old(instances)[instance].capabilities|) else None
      ensures instances == old(instances) - {instance} && templates == old(templates)
      ensures removed.Some? ==>
                && capabilities
                   == (map c | c in old(capabilities) && old(capabilities)[c].instance != instance :: old(capabilities)[c])
                && disk.instances == instances && disk.capabilities == capabilities
    {
      if instance !in instances {
        return None;
      }
      var doomed := set c | c in capabilities && capabilities[c].instance == instance;
      PointersCounted(Snapshot(), instance, doomed);
      removed := Some(|doomed|);
      DropCapabilities(doomed);
      instances := instances - {instance};
      assert capabilities == Without(old(capabilities), instance);
      SavePersisted();
    }
  }

  lemma PointersCounted(s: State, instance: string, pointers: set<string>)
    requires IndexInv(s) && instance in s.instances
    requires forall c :: c in pointers <==> c in s.capabilities && s.capabilities[c].instance == instance
    ensures |pointers| == |s.instances[instance].capabilities|
  {
    assert Indexed(s, instance);
    DistinctSize(s.instances[instance].capabilities);
    assert pointers == set c | c in s.instances[instance].capabilities;
  }

  lemma {:induction false} DistinctSize(ids: seq<string>)
    requires Distinct(ids)
    ensures |set c | c in ids| == |ids|
  {
    if |ids| == 0 {
    } else {
      var front, last := ids[..|ids| - 1], ids[|ids| - 1];
      DistinctSize(front);
      assert (set c | c in ids) == (set c | c in front) + {last};
    }
  }
}
