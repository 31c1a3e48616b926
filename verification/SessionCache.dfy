/**
 The browser's cached authentication session. Any number of loads, refreshes and clears interleave at the points where
 the code awaits something; a generation counter is to keep answers of abandoned loads out.
 */
module SessionCache {
  import opened Wrappers

  type Session = string

  // What the server says about the session: none, or one.
  type Answer = Option<Session>

  datatype Cache = Undefined | Defined(answer: Answer)

  // Where a load is suspended: waiting for the response, for its body, for its finally callback, or over.
  datatype Phase = Fetching | Parsing | Settling | Over

  datatype Load = Load(generation: nat, phase: Phase)

  // An answer handed to the listeners, with the generation it belongs to.
  datatype Published = Published(answer: Answer, generation: nat)

  datatype Response = Unauthorized | NotOk | Good | NetworkError

  // What a caller gets: the cached answer, or the promise of a load.
  datatype Outcome = Cached(answer: Answer) | Awaiting(load: nat)

  class SessionCache {
    const demo: bool
    var cache: Cache
    var request: Option<nat>
    var generation: nat
    var loads: seq<Load>
    var published: seq<Published>

    ghost predicate Valid() reads this {
      // a load never outruns the counter
      && (forall i | 0 <= i < |loads| :: loads[i].generation <= generation)
      // the current request is a load of the current generation that is not over, and the only one
      && (request.Some? ==>
            request.value < |loads| && loads[request.value].generation == generation && !loads[request.value].phase.Over?)
      && (forall i | 0 <= i < |loads| && loads[i].generation == generation && !loads[i].phase.Over? :: request == Some(i))
      // what is cached is what the listeners saw last, and it is of the current generation
      && (cache.Defined? ==> published != [] && published[|published| - 1] == Published(cache.answer, generation))
      // the listeners never see an older generation after a newer one
      && (forall i, j | 0 <= i < j < |published| :: published[i].generation <= published[j].generation)
      && (forall i | 0 <= i < |published| :: published[i].generation <= generation)
    }

    // A load of the current generation that is under way.
    predicate IsCurrent(i: nat)
      requires i < |loads|
      reads this
    {
      loads[i].generation == generation && !loads[i].phase.Over?
    }

    constructor (demo: bool)
      ensures Valid() && cache == Undefined && published == [] && this.demo == demo
    {
      this.demo, cache, request, generation, loads, published := demo, Undefined, None, 0, [], [];
    }

    // A load changes nothing of what others see.
    twostate predicate Unseen() reads this {
      cache == old(cache) && published == old(published) && generation == old(generation)
    }

    // clearAuthSessionCache
    method Clear()
      requires Valid()
      modifies this
      ensures Valid() && generation == old(generation) + 1 && request.None? && loads == old(loads)
      ensures cache == Defined(None) && published == old(published) + [Published(None, generation)]
    {
      generation := generation + 1;
      cache := Defined(None);
      request := None;
      Publish(None);
    }

    // publishAuthSession
    method Publish(answer: Answer)
      modifies this`published
      ensures published == old(published) + [Published(answer, generation)]
    {
      published := published + [Published(answer, generation)];
    }

    // getAuthSession: no caller joins a load of an older generation, and at most one load is started.
    method Get(refresh: bool) returns (outcome: Outcome)
      requires Valid()
      modifies this
      ensures Valid() && published == old(published)
      ensures generation == old(generation) + if refresh then 1 else 0
      ensures cache == if refresh then Undefined else old(cache)
      ensures outcome.Cached? <==> cache.Defined?
      ensures outcome.Cached? ==> outcome.answer == cache.answer && loads == old(loads)
      ensures outcome.Awaiting? ==>
                && request == Some(outcome.load) && outcome.load < |loads| && loads[outcome.load].generation == generation
                && loads == (if !refresh && old(request).Some? then old(loads)
                             else old(loads) + [Load(generation, if demo then Settling else Fetching)])
    {
      if refresh {
        generation := generation + 1;
        cache := Undefined;
        request := None;
      }
      if cache.Defined? {
        return Cached(cache.answer);
      }
      if request.None? {
        loads := loads + [Load(generation, if demo then Settling else Fetching)];
        request := Some(|loads| - 1);
      }
      return Awaiting(request.value);
    }

    // The rest of loadAuthSession once the response has arrived
    method Respond(load: nat, response: Response)
      requires Valid() && load < |loads| && loads[load].phase.Fetching?
      modifies this
      ensures Valid() && generation == old(generation) && request == old(request)
      ensures loads == old(loads)[load := old(loads)[load].(phase := if response.Good? then Parsing else Settling)]
      ensures old(loads)[load].generation != generation ==> Unseen()
      ensures if response.Unauthorized? && old(loads)[load].generation == generation
              then cache == Defined(None) && published == old(published) + [Published(None, generation)]
              else Unseen()
    {
      if response.Unauthorized? && loads[load].generation == generation {
        cache := Defined(None);
        Publish(None);
      }
      loads := loads[load := loads[load].(phase := if response.Good? then Parsing else Settling)];
    }

    // The rest of loadAuthSession once the body has been read; None stands for a body that is not a session.
    method Parse(load: nat, body: Option<Session>)
      requires Valid() && load < |loads| && loads[load].phase.Parsing?
      modifies this
      ensures Valid() && generation == old(generation) && request == old(request)
      ensures loads == old(loads)[load := old(loads)[load].(phase := Settling)]
      ensures old(loads)[load].generation != generation ==> Unseen()
      ensures if body.Some? && old(loads)[load].generation == generation
              then cache == Defined(body) && published == old(published) + [Published(body, generation)]
              else Unseen()
    {
      if body.Some? && loads[load].generation == generation {
        cache := Defined(body);
        Publish(body);
      }
      loads := loads[load := loads[load].(phase := Settling)];
    }

    // The finally callback of getAuthSession
    method Finish(load: nat)
      requires Valid() && load < |loads| && loads[load].phase.Settling?
      modifies this
      ensures Valid() && Unseen()
      ensures request == if old(request) == Some(load) then None else old(request)
      ensures loads == old(loads)[load := old(loads)[load].(phase := Over)]
    {
      if request == Some(load) {
        request := None;
      }
      loads := loads[load := loads[load].(phase := Over)];
    }
  }

  // ---- Any interleaving ----

  datatype Step =
    | Clearing
    | Getting(refresh: bool)
    | Responding(load: nat, response: Response)
    | ReadingBody(load: nat, body: Option<Session>)
    | Finishing(load: nat)

  // Runs any schedule; steps that are not possible when their turn comes are skipped. From a clear on, the listeners
  // only see answers of loads that started after it.
  method Interleave(s: SessionCache, steps: seq<Step>)
    requires s.Valid()
    modifies s
    ensures s.Valid() && s.generation >= old(s.generation)
    ensures old(s.published) <= s.published
    ensures forall i | |old(s.published)| <= i < |s.published| :: s.published[i].generation >= old(s.generation)
    ensures s.cache.Defined? ==> s.published != [] && s.published[|s.published| - 1].answer == s.cache.answer
    ensures forall i, j | 0 <= i < |s.loads| && 0 <= j < |s.loads| && s.IsCurrent(i) && s.IsCurrent(j) :: i == j
  {
    for n := 0 to |steps|
      invariant s.Valid() && s.generation >= old(s.generation) && old(s.published) <= s.published
      invariant forall i | |old(s.published)| <= i < |s.published| :: s.published[i].generation >= old(s.generation)
    {
      match steps[n] {
        case Clearing => s.Clear();
        case Getting(refresh) => var _ := s.Get(refresh);
        case Responding(load, response) =>
          if load < |s.loads| && s.loads[load].phase.Fetching? {
            s.Respond(load, response);
          }
        case ReadingBody(load, body) =>
          if load < |s.loads| && s.loads[load].phase.Parsing? {
            s.Parse(load, body);
          }
        case Finishing(load) =>
          if load < |s.loads| && s.loads[load].phase.Settling? {
            s.Finish(load);
          }
      }
    }
  }
}
