/** The service registry (src/Core/Container.php): resolvers registered by
    name, and the instances they produced, kept so each resolver runs once. */
module Container {
  import opened Wrappers

  /** What `get` hands out: an object, or a stored null. */
  datatype Instance = Null | Object(id: string)

  /** What a resolver returns: `produce(resolver, run)` is the value of the
      resolver numbered `resolver` when it is the container's `run`-th
      resolver call.  A resolver may return null. */
  type Producer = (nat, nat) -> Instance

  /** The container's state.  Resolvers are identified by a number; `runs`
      counts the resolver calls so far. */
  datatype State = State(services: map<string, nat>, instances: map<string, Instance>, runs: nat)

  /** `isset($this->instances[$name])`: present and not null. */
  predicate HasInstance(s: State, name: string) {
    name in s.instances && s.instances[name] != Null
  }

  /** has */
  predicate Registered(s: State, name: string) {
    name in s.services || HasInstance(s, name)
  }

  function NotFound(name: string): string {
    "Service " + name + " not found in container"
  }

  /** get: the stored instance; otherwise the resolver's product, stored for
      later; otherwise the "not found" error. */
  function Resolve(s: State, name: string, produce: Producer): (r: (State, Result<Instance, string>))
    ensures HasInstance(s, name) ==> r == (s, Success(s.instances[name]))
    ensures !Registered(s, name) ==> r == (s, Failure(NotFound(name)))
    ensures r.0.services == s.services
    ensures r.1.Success? ==> name in r.0.instances && r.0.instances[name] == r.1.value
    ensures r.0.runs == s.runs + (if HasInstance(s, name) || !Registered(s, name) then 0 else 1)
    ensures !HasInstance(s, name) && name in s.services ==>
      r.1 == Success(produce(s.services[name], s.runs)) &&
      r.0.instances == s.instances[name := produce(s.services[name], s.runs)]
  {
    if HasInstance(s, name) then (s, Success(s.instances[name]))
    else if name !in s.services then (s, Failure(NotFound(name)))
    else
      var made := produce(s.services[name], s.runs);
      (State(s.services, s.instances[name := made], s.runs + 1), Success(made))
  }

  /** A second get returns what the first one returned and runs nothing,
      provided the first one gave an object. */
  lemma GetMemoised(s: State, name: string, produce: Producer)
    requires Resolve(s, name, produce).1.Success? && Resolve(s, name, produce).1.value != Null
    ensures var (s1, r1) := Resolve(s, name, produce); Resolve(s1, name, produce) == (s1, r1)
  {
  }

  /** A resolver that returns null is not remembered: the next get runs it
      again. */
  lemma NullProductReruns(s: State, name: string, produce: Producer)
    requires !HasInstance(s, name) && name in s.services
    requires produce(s.services[name], s.runs) == Null
    ensures Resolve(Resolve(s, name, produce).0, name, produce).0.runs == s.runs + 2
  {
  }

  /** However many gets of a name follow one another, the state is the one
      the first left: the resolver ran at most once, unless it returned null. */
  lemma {:induction false} GetRunsOnce(s: State, name: string, produce: Producer, n: nat)
    requires name in s.services ==> produce(s.services[name], s.runs) != Null
    ensures Repeat(s, name, produce, n + 1) == Resolve(s, name, produce).0
    ensures Repeat(s, name, produce, n + 1).runs <= s.runs + 1
    decreases n
  {
    if n >= 1 {
      GetRunsOnce(s, name, produce, n - 1);
      if Resolve(s, name, produce).1.Success? {
        GetMemoised(s, name, produce);
      }
    }
  }

  /** The state after `n` gets of the same name. */
  function Repeat(s: State, name: string, produce: Producer, n: nat): State
    decreases n
  {
    if n == 0 then s else Resolve(Repeat(s, name, produce, n - 1), name, produce).0
  }

  /** set */
  function Register(s: State, name: string, resolver: nat): (r: State)
    ensures r.instances == s.instances && r.runs == s.runs
    ensures name in r.services && r.services[name] == resolver
  {
    s.(services := s.services[name := resolver])
  }

  /** Registering a new resolver after a get that gave an object does not
      change what get returns. */
  lemma SetAfterGet(s: State, name: string, resolver: nat, produce: Producer)
    requires Resolve(s, name, produce).1.Success? && Resolve(s, name, produce).1.value != Null
    ensures var (s1, r1) := Resolve(s, name, produce); Resolve(Register(s1, name, resolver), name, produce).1 == r1
  {
  }

  /** instance */
  function Put(s: State, name: string, x: Instance): (r: State)
    ensures r.services == s.services && r.runs == s.runs
    ensures name in r.instances && r.instances[name] == x
  {
    s.(instances := s.instances[name := x])
  }

  /** A stored non-null instance is what get returns, without a resolver run. */
  lemma PutThenGet(s: State, name: string, x: Instance, produce: Producer)
    requires x != Null
    ensures Resolve(Put(s, name, x), name, produce) == (Put(s, name, x), Success(x))
  {
  }

  /** remove */
  function Forget(s: State, name: string): (r: State)
    ensures !Registered(r, name)
    ensures forall n :: n != name ==> (Registered(r, n) <==> Registered(s, n))
  {
    State(s.services - {name}, s.instances - {name}, s.runs)
  }

  /** After remove, get fails. */
  lemma RemoveThenGet(s: State, name: string, produce: Producer)
    ensures Resolve(Forget(s, name), name, produce).1 == Failure(NotFound(name))
  {
  }

  class Container {
    var services: map<string, nat>
    var instances: map<string, Instance>
    var runs: nat

    function Current(): State
      reads this
    {
      State(services, instances, runs)
    }

    constructor ()
      ensures Current() == State(map[], map[], 0)
    {
      services := map[];
      instances := map[];
      runs := 0;
    }

    method Set(name: string, resolver: nat)
      modifies this
      ensures Current() == Register(old(Current()), name, resolver)
    {
      services := services[name := resolver];
    }

    method Get(name: string, produce: Producer) returns (r: Result<Instance, string>)
      modifies this
      ensures (Current(), r) == Resolve(old(Current()), name, produce)
    {
      if !(name in instances && instances[name] != Null) {
        if name !in services {
          return Failure(NotFound(name));
        }
        instances := instances[name := produce(services[name], runs)];
        runs := runs + 1;
      }
      r := Success(instances[name]);
    }

    function Has(name: string): (r: bool)
      reads this
      ensures r == Registered(Current(), name)
    {
      name in services || (name in instances && instances[name] != Null)
    }

    method Instance(name: string, x: Instance)
      modifies this
      ensures Current() == Put(old(Current()), name, x)
    {
      instances := instances[name := x];
    }

    method Remove(name: string)
      modifies this
      ensures Current() == Forget(old(Current()), name)
    {
      services := services - {name};
      instances := instances - {name};
    }
  }
}
