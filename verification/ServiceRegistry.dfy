/** service_registry (service_registry.hpp): use_service looks a service up under
    the mutex, releases it to construct one (the constructor may call use_service
    itself), and looks again before publishing. */
module ServiceRegistries {
  import opened Prelude

  // Keys and instances are numbers; instances are numbered as constructed.
  datatype Registry = Registry(services: map<nat, nat>)

  // ---- The sections of use_service ----

  function Look(r: Registry, key: nat): Option<nat>
  {
    if key in r.services then Some(r.services[key]) else None
  }

  datatype Published = Published(registry: Registry, instance: nat, freed: bool)

  // The second look: an instance that has lost the race dies with its unique_ptr.
  function Publish(r: Registry, key: nat, instance: nat): Published
  {
    if key in r.services then Published(r, r.services[key], true)
    else Published(Registry(r.services[key := instance]), instance, false)
  }

  // One call: the entry found at the first look, else the one found at the second,
  // else the instance built.
  predicate UseServiceDoes(services: map<nat, nat>, key: nat, built: nat, others: map<nat, nat>,
                           services': map<nat, nat>, instance: nat, freed: bool)
  {
    if key in services then services' == services && instance == services[key] && !freed
    else if key in others then services' == services + others && instance == others[key] && freed
    else services' == (services + others)[key := built] && instance == built && !freed
  }

  class ServiceRegistry {
    var services: map<nat, nat>

    constructor ()
      ensures services == map[]
    {
      services := map[];
    }

    ghost function View(): Registry reads this { Registry(services) }

    method HasService(key: nat) returns (found: bool)
      ensures found <==> key in services
    {
      found := key in services;
    }

    // The source asserts that the key is free.
    method AddService(key: nat, instance: nat)
      requires key !in services
      modifies this
      ensures services == old(services)[key := instance]
    {
      services := services[key := instance];
    }

    /** One call. `others` is what other callers publish while the mutex is
        released; an existing entry is never replaced. */
    method UseService(key: nat, built: nat, others: map<nat, nat>) returns (instance: nat, freed: bool)
      requires others.Keys !! services.Keys
      modifies this
      ensures key in services && instance == services[key]
      ensures UseServiceDoes(old(services), key, built, others, services, instance, freed)
      ensures forall k :: k in old(services) ==> k in services && services[k] == old(services)[k]
    {
      if key in services {
        return services[key], false;
      }
      services := services + others;
      if key in services {
        return services[key], true;
      }
      services := services[key := built];
      return built, false;
    }
  }

  // ---- All interleavings of callers ----

  // An activation of use_service: about to look; constructing with the mutex
  // released (activations above it are calls made by the constructor); about to
  // look again.
  datatype Frame = Looking(key: nat) | Constructing(key: nat, instance: nat) | Built(key: nat, instance: nat)

  datatype State = State(
    registry: Registry,
    callers: seq<seq<Frame>>,
    nextInstance: nat,
    freed: seq<nat>,
    returned: seq<(nat, nat)>)

  ghost predicate Init(s: State)
  {
    && s.registry == Registry(map[]) && s.nextInstance == 0 && s.freed == [] && s.returned == []
    && forall t :: 0 <= t < |s.callers| ==> s.callers[t] == []
  }

  datatype Step =
    | Call(t: nat, key: nat)
    | LookUp(t: nat)
    | FinishConstruction(t: nat)
    | LookAgain(t: nat)
    | AddFresh(key: nat)

  function Top(stack: seq<Frame>): Option<Frame>
  {
    if stack == [] then None else Some(stack[|stack| - 1])
  }

  function Rest(stack: seq<Frame>): seq<Frame>
    requires stack != []
  {
    stack[..|stack| - 1]
  }

  predicate Enabled(s: State, step: Step)
  {
    match step
    case Call(t, _) => t < |s.callers| && (s.callers[t] == [] || Top(s.callers[t]).value.Constructing?)
    case LookUp(t) => t < |s.callers| && s.callers[t] != [] && Top(s.callers[t]).value.Looking?
    case FinishConstruction(t) => t < |s.callers| && s.callers[t] != [] && Top(s.callers[t]).value.Constructing?
    case LookAgain(t) => t < |s.callers| && s.callers[t] != [] && Top(s.callers[t]).value.Built?
    case AddFresh(key) => key !in s.registry.services
  }

  function Return(s: State, t: nat, key: nat, instance: nat): State
    requires t < |s.callers| && s.callers[t] != []
  {
    s.(callers := s.callers[t := Rest(s.callers[t])], returned := s.returned + [(key, instance)])
  }

  function Next(s: State, step: Step): State
    requires Enabled(s, step)
  {
    match step
    case Call(t, key) => s.(callers := s.callers[t := s.callers[t] + [Looking(key)]])
    case LookUp(t) =>
      var key := Top(s.callers[t]).value.key;
      (match Look(s.registry, key)
       case Some(instance) => Return(s, t, key, instance)
       case None =>
         s.(callers := s.callers[t := Rest(s.callers[t]) + [Constructing(key, s.nextInstance)]],
            nextInstance := s.nextInstance + 1))
    case FinishConstruction(t) =>
      var f := Top(s.callers[t]).value;
      s.(callers := s.callers[t := Rest(s.callers[t]) + [Built(f.key, f.instance)]])
    case LookAgain(t) =>
      var f := Top(s.callers[t]).value;
      var p := Publish(s.registry, f.key, f.instance);
      Return(s.(registry := p.registry, freed := if p.freed then s.freed + [f.instance] else s.freed),
             t, f.key, p.instance)
    case AddFresh(key) =>
      s.(registry := Registry(s.registry.services[key := s.nextInstance]), nextInstance := s.nextInstance + 1)
  }

  ghost predicate IsRun(states: seq<State>, steps: seq<Step>)
  {
    && |states| == |steps| + 1 && Init(states[0])
    && forall i :: 0 <= i < |steps| ==> Enabled(states[i], steps[i]) && states[i + 1] == Next(states[i], steps[i])
  }

  // ---- Where an instance is ----

  predicate Holds(f: Frame, instance: nat) { !f.Looking? && f.instance == instance }

  // How often the activations hold an instance.
  function InStack(stack: seq<Frame>, instance: nat): nat
  {
    if stack == [] then 0
    else InStack(Rest(stack), instance) + if Holds(stack[|stack| - 1], instance) then 1 else 0
  }

  function InCallers(callers: seq<seq<Frame>>, instance: nat): nat
  {
    if callers == [] then 0 else InStack(callers[0], instance) + InCallers(callers[1..], instance)
  }

  function InFreed(freed: seq<nat>, instance: nat): nat { multiset(freed)[instance] }

  ghost predicate Registered(r: Registry, instance: nat)
  {
    exists k :: k in r.services && r.services[k] == instance
  }

  ghost function InRegistry(r: Registry, instance: nat): nat { if Registered(r, instance) then 1 else 0 }

  ghost predicate Injective(m: map<nat, nat>)
  {
    forall k, l :: k in m && l in m && m[k] == m[l] ==> k == l
  }

  /** Every constructed instance is in exactly one place: under construction,
      registered under exactly one key, or freed, once. */
  ghost predicate PlacedOnce(s: State)
  {
    && (forall i: nat {:trigger InCallers(s.callers, i)} ::
          InCallers(s.callers, i) + InRegistry(s.registry, i) + InFreed(s.freed, i) == if i < s.nextInstance then 1 else 0)
    && Injective(s.registry.services)
  }

  ghost predicate ReturnsAgree(s: State)
  {
    forall i :: 0 <= i < |s.returned| ==>
      s.returned[i].0 in s.registry.services && s.registry.services[s.returned[i].0] == s.returned[i].1
  }

  ghost predicate Inv(s: State) { PlacedOnce(s) && ReturnsAgree(s) }

  lemma {:induction false} CallersUpdate(callers: seq<seq<Frame>>, t: nat, stack: seq<Frame>, i: nat)
    requires t < |callers|
    ensures InCallers(callers[t := stack], i) == InCallers(callers, i) - InStack(callers[t], i) + InStack(stack, i)
  {
    if t == 0 {
      assert callers[t := stack][1..] == callers[1..];
    } else {
      CallersUpdate(callers[1..], t - 1, stack, i);
      assert callers[t := stack][1..] == callers[1..][t - 1 := stack];
    }
  }

  lemma StackPush(stack: seq<Frame>, f: Frame, i: nat)
    ensures InStack(stack + [f], i) == InStack(stack, i) + if Holds(f, i) then 1 else 0
  {
    assert Rest(stack + [f]) == stack;
  }

  // A caller's stack changes at the top only.
  lemma TopChange(s: State, t: nat, stack: seq<Frame>, i: nat)
    requires t < |s.callers| && s.callers[t] != []
    requires stack == Rest(s.callers[t]) || exists f :: stack == Rest(s.callers[t]) + [f]
    ensures InCallers(s.callers[t := stack], i)
         == InCallers(s.callers, i) - (if Holds(Top(s.callers[t]).value, i) then 1 else 0)
            + (if |stack| == |s.callers[t]| && Holds(stack[|stack| - 1], i) then 1 else 0)
  {
    CallersUpdate(s.callers, t, stack, i);
    if stack != Rest(s.callers[t]) {
      var f :| stack == Rest(s.callers[t]) + [f];
      StackPush(Rest(s.callers[t]), f, i);
    }
  }

  lemma RegistryAdd(r: Registry, key: nat, instance: nat, i: nat)
    requires key !in r.services
    ensures Registered(Registry(r.services[key := instance]), i) <==> Registered(r, i) || i == instance
  {
    var r' := Registry(r.services[key := instance]);
    if Registered(r, i) {
      var k :| k in r.services && r.services[k] == i;
      assert k in r'.services && r'.services[k] == i;
    }
    assert key in r'.services && r'.services[key] == instance;
  }

  // How the places of an instance change in each step.
  lemma PlacedCall(s: State, t: nat, key: nat, i: nat)
    requires Enabled(s, Call(t, key))
    ensures InCallers(Next(s, Call(t, key)).callers, i) == InCallers(s.callers, i)
  {
    CallersUpdate(s.callers, t, s.callers[t] + [Looking(key)], i);
    StackPush(s.callers[t], Looking(key), i);
  }

  lemma PlacedLookUp(s: State, t: nat, i: nat)
    requires Enabled(s, LookUp(t))
    ensures InCallers(Next(s, LookUp(t)).callers, i)
         == InCallers(s.callers, i) + if s.nextInstance <= i < Next(s, LookUp(t)).nextInstance then 1 else 0
  {
    TopChange(s, t, Next(s, LookUp(t)).callers[t], i);
  }

  lemma PlacedFinish(s: State, t: nat, i: nat)
    requires Enabled(s, FinishConstruction(t))
    ensures InCallers(Next(s, FinishConstruction(t)).callers, i) == InCallers(s.callers, i)
  {
    TopChange(s, t, Next(s, FinishConstruction(t)).callers[t], i);
  }

  lemma PlacedLookAgain(s: State, t: nat, i: nat)
    requires PlacedOnce(s) && Enabled(s, LookAgain(t))
    ensures var s' := Next(s, LookAgain(t));
      InCallers(s'.callers, i) + InRegistry(s'.registry, i) + InFreed(s'.freed, i)
      == InCallers(s.callers, i) + InRegistry(s.registry, i) + InFreed(s.freed, i)
  {
    var f := Top(s.callers[t]).value;
    TopChange(s, t, Rest(s.callers[t]), i);
    TopIsHeld(s, t);
    if f.key !in s.registry.services {
      RegistryAdd(s.registry, f.key, f.instance, i);
    } else {
      assert multiset(s.freed + [f.instance]) == multiset(s.freed) + multiset{f.instance};
    }
  }

  // An instance on top of a stack is registered nowhere, and not freed.
  lemma TopIsHeld(s: State, t: nat)
    requires PlacedOnce(s) && Enabled(s, LookAgain(t))
    ensures !Registered(s.registry, Top(s.callers[t]).value.instance)
  {
    var i := Top(s.callers[t]).value.instance;
    TopChange(s, t, Rest(s.callers[t]), i);
    assert InCallers(s.callers, i) + InRegistry(s.registry, i) + InFreed(s.freed, i) == if i < s.nextInstance then 1 else 0;
  }

  lemma NextIsNowhere(s: State)
    requires PlacedOnce(s)
    ensures !Registered(s.registry, s.nextInstance)
  {
    assert InCallers(s.callers, s.nextInstance) + InRegistry(s.registry, s.nextInstance) + InFreed(s.freed, s.nextInstance) == 0;
  }

  lemma PlacedAt(s: State, step: Step, i: nat)
    requires PlacedOnce(s) && Enabled(s, step)
    ensures var s' := Next(s, step);
      InCallers(s'.callers, i) + InRegistry(s'.registry, i) + InFreed(s'.freed, i)
      == InCallers(s.callers, i) + InRegistry(s.registry, i) + InFreed(s.freed, i)
         + (if s.nextInstance <= i < s'.nextInstance then 1 else 0)
  {
    match step
    case Call(t, key) => PlacedCall(s, t, key, i);
    case LookUp(t) => PlacedLookUp(s, t, i);
    case FinishConstruction(t) => PlacedFinish(s, t, i);
    case LookAgain(t) => PlacedLookAgain(s, t, i);
    case AddFresh(key) =>
      RegistryAdd(s.registry, key, s.nextInstance, i);
      NextIsNowhere(s);
  }

  lemma StaysInjective(s: State, step: Step)
    requires PlacedOnce(s) && Enabled(s, step)
    ensures Injective(Next(s, step).registry.services)
  {
    if step.LookAgain? {
      TopIsHeld(s, step.t);
    } else if step.AddFresh? {
      NextIsNowhere(s);
    }
    var m, m' := s.registry.services, Next(s, step).registry.services;
    forall k, l | k in m' && l in m' && m'[k] == m'[l]
      ensures k == l
    {
      assert k in m ==> Registered(s.registry, m[k]);
      assert l in m ==> Registered(s.registry, m[l]);
    }
  }

  lemma InvStep(s: State, step: Step)
    requires Inv(s) && Enabled(s, step)
    ensures Inv(Next(s, step))
  {
    var s' := Next(s, step);
    forall i: nat
      ensures InCallers(s'.callers, i) + InRegistry(s'.registry, i) + InFreed(s'.freed, i) == if i < s'.nextInstance then 1 else 0
    {
      assert InCallers(s.callers, i) + InRegistry(s.registry, i) + InFreed(s.freed, i) == if i < s.nextInstance then 1 else 0;
      PlacedAt(s, step, i);
    }
    StaysInjective(s, step);
  }

  lemma {:induction false} NobodyHolds(callers: seq<seq<Frame>>, i: nat)
    requires forall t :: 0 <= t < |callers| ==> callers[t] == []
    ensures InCallers(callers, i) == 0
  {
    if callers != [] {
      NobodyHolds(callers[1..], i);
    }
  }

  lemma {:induction false} InvHolds(states: seq<State>, steps: seq<Step>, i: nat)
    requires IsRun(states, steps) && i < |states|
    ensures Inv(states[i])
  {
    if i == 0 {
      forall k: nat
        ensures InCallers(states[0].callers, k) == 0
      {
        NobodyHolds(states[0].callers, k);
      }
    } else {
      InvHolds(states, steps, i - 1);
      InvStep(states[i - 1], steps[i - 1]);
    }
  }

  // ---- What use_service promises ----

  lemma EntriesStep(s: State, step: Step, key: nat)
    requires Enabled(s, step) && key in s.registry.services
    ensures key in Next(s, step).registry.services
         && Next(s, step).registry.services[key] == s.registry.services[key]
  {
  }

  /** An entry, once set, never changes. */
  lemma {:induction false} EntriesNeverChange(states: seq<State>, steps: seq<Step>, i: nat, k: nat, key: nat)
    requires IsRun(states, steps) && i <= k < |states| && key in states[i].registry.services
    ensures key in states[k].registry.services
         && states[k].registry.services[key] == states[i].registry.services[key]
    decreases k
  {
    if i < k {
      EntriesNeverChange(states, steps, i, k - 1, key);
      EntriesStep(states[k - 1], steps[k - 1], key);
    }
  }

  /** All callers of a key are given the same instance, the registered one, which
      is never freed. */
  lemma CallersAgree(states: seq<State>, steps: seq<Step>, n: nat, i: nat, k: nat)
    requires IsRun(states, steps) && n < |states|
    requires i < |states[n].returned| && k < |states[n].returned| && states[n].returned[i].0 == states[n].returned[k].0
    ensures states[n].returned[i].1 == states[n].returned[k].1
    ensures Registered(states[n].registry, states[n].returned[i].1)
    ensures states[n].returned[i].1 !in states[n].freed
  {
    InvHolds(states, steps, n);
    var s := states[n];
    var (key, instance) := s.returned[i];
    assert key in s.registry.services && s.registry.services[key] == instance;
    assert InCallers(s.callers, instance) + InRegistry(s.registry, instance) + InFreed(s.freed, instance)
        == if instance < s.nextInstance then 1 else 0;
  }

  /** Each losing construction is freed exactly once: when no call is under way,
      every instance ever constructed is either registered and not freed, or
      freed once and not registered. */
  lemma LosersFreedOnce(states: seq<State>, steps: seq<Step>, n: nat, i: nat)
    requires IsRun(states, steps) && n < |states| && i < states[n].nextInstance
    requires forall t :: 0 <= t < |states[n].callers| ==> states[n].callers[t] == []
    ensures if Registered(states[n].registry, i) then multiset(states[n].freed)[i] == 0
      else multiset(states[n].freed)[i] == 1
  {
    InvHolds(states, steps, n);
    NobodyHolds(states[n].callers, i);
    assert InCallers(states[n].callers, i) + InRegistry(states[n].registry, i) + InFreed(states[n].freed, i) == 1;
  }

  /** The class method is the machine's two looks, `others` being published while the
      instance is constructed; nothing is constructed when the first look succeeds. */
  lemma UseServiceIsItsSteps(s: State, t: nat, others: map<nat, nat>, services': map<nat, nat>, instance: nat, freed: bool)
    requires Enabled(s, LookUp(t)) && others.Keys !! s.registry.services.Keys
    requires UseServiceDoes(s.registry.services, Top(s.callers[t]).value.key, s.nextInstance, others, services', instance, freed)
    ensures var key, s1 := Top(s.callers[t]).value.key, Next(s, LookUp(t));
      if key in s.registry.services then
        && s1.registry.services == services' && s1.returned == s.returned + [(key, instance)] && s1.freed == s.freed
        && s1.nextInstance == s.nextInstance && s1.callers == s.callers[t := Rest(s.callers[t])]
      else
        var s2 := s1.(registry := Registry(s.registry.services + others));
        && Enabled(s2, FinishConstruction(t))
        && var s3 := Next(s2, FinishConstruction(t));
           && Enabled(s3, LookAgain(t))
           && var s4 := Next(s3, LookAgain(t));
              && s4.registry.services == services' && s4.returned == s.returned + [(key, instance)]
              && s4.freed == (if freed then s.freed + [s.nextInstance] else s.freed)
              && s4.nextInstance == s.nextInstance + 1 && s4.callers == s.callers[t := Rest(s.callers[t])]
  {
    var key, rest := Top(s.callers[t]).value.key, Rest(s.callers[t]);
    if key !in s.registry.services {
      assert Rest(rest + [Constructing(key, s.nextInstance)]) == rest;
      assert Rest(rest + [Built(key, s.nextInstance)]) == rest;
    }
  }

  /** Once a key has an entry no call constructs for it again: the first look of every
      later call returns that entry. */
  lemma FoundOnceRegistered(states: seq<State>, steps: seq<Step>, i: nat, k: nat, key: nat)
    requires IsRun(states, steps) && i <= k < |steps| && key in states[i].registry.services
    requires steps[k].LookUp? && Top(states[k].callers[steps[k].t]) == Some(Looking(key))
    ensures states[k + 1].nextInstance == states[k].nextInstance && states[k + 1].registry == states[k].registry
    ensures states[k + 1].returned == states[k].returned + [(key, states[i].registry.services[key])]
  {
    EntriesNeverChange(states, steps, i, k, key);
    assert states[k + 1] == Next(states[k], steps[k]);
  }
}
