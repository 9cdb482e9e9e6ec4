/** The simulation engine: register everyone once, then run a fixed number
    of epochs. In each epoch every provider is sampled once, every consumer
    chooses a provider and is credited with that provider's sample, then all
    consumers and all witnesses update. `run` returns the per-consumer and
    per-provider totals.

    What a consumer chooses belongs to its trust method, so the choice of
    consumer c in epoch e is the input `choice(e, c)`: a provider's position
    in the list, or the exception `choose_provider` raised. The draw provider
    j takes in epoch e is `draw(e, j)`. Whether the other calls `run` makes
    into a consumer or a witness (`register_providers`, `register_witnesses`,
    `update_provider`, `update`) return or raise belongs to them as well, so
    it is the input `call(ev)` for the event ev that stands for the call. */
module Simulations {
  import opened Errors
  import opened Providers

  /** The trust methods a simulation can be built with. */
  datatype TcmKind = BaseConsumer | Act | Itea | Travos | Met | ExampleNtcm

  /** What a scenario supplies: the providers, and how many consumers and
      witnesses there are. */
  datatype Population = Population(providers: seq<Provider>, consumers: nat, witnesses: nat)

  datatype Simulation = Simulation(population: Population, tcm: TcmKind, totalEpochs: nat)

  /** The constructor refuses a missing scenario or trust method. */
  function NewSimulation(scenario: Option<Population>, tcm: Option<TcmKind>, totalEpochs: nat): (r: Result<Simulation>)
    ensures r == Err(ToDo) <==> scenario.None? || tcm.None?
    ensures r.Ok? ==> r.value == Simulation(scenario.value, tcm.value, totalEpochs)
  {
    if scenario.None? || tcm.None? then Err(ToDo) else Ok(Simulation(scenario.value, tcm.value, totalEpochs))
  }

  /** One step of `run`, as it happens. */
  datatype Event =
    | RegisterProviders(consumer: nat)
    | RegisterWitnesses(consumer: nat)
    | WitnessRegistersProviders(w: nat)
    | Sample(epoch: nat, provider: nat)
    | Feedback(epoch: nat, consumer: nat, provider: nat, score: real)   // choose_provider, then update_provider
    | ConsumerUpdate(epoch: nat, consumer: nat)
    | WitnessUpdate(epoch: nat, w: nat)

  /** The choice names a provider of the list. */
  predicate GoodChoice(ch: Result<nat>, providerCount: nat)
  {
    ch.Ok? && ch.value < providerCount
  }

  /** The exception a bad choice produces: the method's own, or the KeyError
      of looking up a provider outside the list. */
  function ChoiceError(ch: Result<nat>): Error
  {
    if ch.Err? then ch.error else KeyError
  }

  /** Every consumer below `consumers` chose well in epoch e. */
  ghost predicate ChoicesGoodAt(choice: (nat, nat) -> Result<nat>, e: nat, consumers: nat, providerCount: nat)
  {
    forall c: nat :: c < consumers ==> GoodChoice(choice(e, c), providerCount)
  }

  /** Every consumer chose well in each of the first n epochs. */
  ghost predicate ChoicesGood(choice: (nat, nat) -> Result<nat>, n: nat, consumers: nat, providerCount: nat)
  {
    forall e: nat, c: nat :: e < n && c < consumers ==> GoodChoice(choice(e, c), providerCount)
  }

  /** The provider a good choice names (0 stands in for a bad one, which
      `run` never gets past). */
  function Chosen(ch: Result<nat>): nat
  {
    if ch.Ok? then ch.value else 0
  }

  /** What a consumer is credited with in epoch e: the epoch-e sample of
      the provider it chose. */
  function Gain(ps: seq<Provider>, ch: Result<nat>, e: nat, draw: (nat, nat) -> real): real
  {
    if GoodChoice(ch, |ps|) then GetService(ps[ch.value], draw(e, ch.value)) else 0.0
  }

  /** Σ_{e < n} of provider j's sample in epoch e. */
  function TrueTotal(ps: seq<Provider>, j: nat, n: nat, draw: (nat, nat) -> real): real
    requires j < |ps|
  {
    if n == 0 then 0.0 else TrueTotal(ps, j, n - 1, draw) + GetService(ps[j], draw(n - 1, j))
  }

  /** Σ_{e < n} of what consumer c was credited with in epoch e. */
  function ConsumerTotal(ps: seq<Provider>, c: nat, n: nat, draw: (nat, nat) -> real,
                         choice: (nat, nat) -> Result<nat>): real
  {
    if n == 0 then 0.0 else ConsumerTotal(ps, c, n - 1, draw, choice) + Gain(ps, choice(n - 1, c), n - 1, draw)
  }

  /** A consumer that chooses provider j in every epoch earns exactly what j
      delivered over the run. */
  lemma {:induction false} LoyalConsumerEarnsTrueValue(ps: seq<Provider>, c: nat, j: nat, n: nat,
                                                         draw: (nat, nat) -> real, choice: (nat, nat) -> Result<nat>)
    requires j < |ps|
    requires forall e: nat :: e < n ==> choice(e, c) == Ok(j)
    ensures ConsumerTotal(ps, c, n, draw, choice) == TrueTotal(ps, j, n, draw)
  {
    if n > 0 {
      LoyalConsumerEarnsTrueValue(ps, c, j, n - 1, draw, choice);
    }
  }

  function ConsumerRegistrations(n: nat): seq<Event>
  {
    if n == 0 then [] else ConsumerRegistrations(n - 1) + [RegisterProviders(n - 1), RegisterWitnesses(n - 1)]
  }

  function WitnessRegistrations(n: nat): seq<Event>
  {
    if n == 0 then [] else WitnessRegistrations(n - 1) + [WitnessRegistersProviders(n - 1)]
  }

  /** Before the first epoch: every consumer registers the providers and
      then the witnesses, consumer by consumer; then every witness registers
      the providers. */
  function RegistrationTrace(consumers: nat, witnesses: nat): seq<Event>
  {
    ConsumerRegistrations(consumers) + WitnessRegistrations(witnesses)
  }

  function Samples(e: nat, n: nat): seq<Event>
  {
    if n == 0 then [] else Samples(e, n - 1) + [Sample(e, n - 1)]
  }

  function Feedbacks(ps: seq<Provider>, e: nat, n: nat, draw: (nat, nat) -> real,
                     choice: (nat, nat) -> Result<nat>): seq<Event>
  {
    if n == 0 then []
    else
      Feedbacks(ps, e, n - 1, draw, choice)
        + [Feedback(e, n - 1, Chosen(choice(e, n - 1)), Gain(ps, choice(e, n - 1), e, draw))]
  }

  function ConsumerUpdates(e: nat, n: nat): seq<Event>
  {
    if n == 0 then [] else ConsumerUpdates(e, n - 1) + [ConsumerUpdate(e, n - 1)]
  }

  function WitnessUpdates(e: nat, n: nat): seq<Event>
  {
    if n == 0 then [] else WitnessUpdates(e, n - 1) + [WitnessUpdate(e, n - 1)]
  }

  /** Epoch e: all samples, then choose-and-feedback consumer by consumer,
      then all consumer updates, then all witness updates. */
  function EpochTrace(ps: seq<Provider>, consumers: nat, witnesses: nat, e: nat, draw: (nat, nat) -> real,
                      choice: (nat, nat) -> Result<nat>): seq<Event>
  {
    Samples(e, |ps|) + Feedbacks(ps, e, consumers, draw, choice) + ConsumerUpdates(e, consumers)
      + WitnessUpdates(e, witnesses)
  }

  function EpochsTrace(ps: seq<Provider>, consumers: nat, witnesses: nat, n: nat, draw: (nat, nat) -> real,
                       choice: (nat, nat) -> Result<nat>): seq<Event>
  {
    if n == 0 then []
    else EpochsTrace(ps, consumers, witnesses, n - 1, draw, choice)
         + EpochTrace(ps, consumers, witnesses, n - 1, draw, choice)
  }

  /** The phase an event belongs to inside an epoch. */
  function Phase(ev: Event): nat
  {
    match ev
    case Sample(_, _) => 1
    case Feedback(_, _, _, _) => 2
    case ConsumerUpdate(_, _) => 3
    case WitnessUpdate(_, _) => 4
    case _ => 0
  }

  predicate PhasesInOrder(t: seq<Event>)
  {
    forall i, j :: 0 <= i < j < |t| ==> Phase(t[i]) <= Phase(t[j])
  }

  predicate AllInPhase(t: seq<Event>, k: nat)
  {
    forall i :: 0 <= i < |t| ==> Phase(t[i]) == k
  }

  lemma {:induction false} SamplesPhase(e: nat, n: nat)
    ensures AllInPhase(Samples(e, n), 1) && |Samples(e, n)| == n
  {
    if n > 0 {
      SamplesPhase(e, n - 1);
    }
  }

  lemma {:induction false} FeedbacksPhase(ps: seq<Provider>, e: nat, n: nat, draw: (nat, nat) -> real,
                                           choice: (nat, nat) -> Result<nat>)
    ensures AllInPhase(Feedbacks(ps, e, n, draw, choice), 2) && |Feedbacks(ps, e, n, draw, choice)| == n
  {
    if n > 0 {
      FeedbacksPhase(ps, e, n - 1, draw, choice);
    }
  }

  lemma {:induction false} ConsumerUpdatesPhase(e: nat, n: nat)
    ensures AllInPhase(ConsumerUpdates(e, n), 3) && |ConsumerUpdates(e, n)| == n
  {
    if n > 0 {
      ConsumerUpdatesPhase(e, n - 1);
    }
  }

  lemma {:induction false} WitnessUpdatesPhase(e: nat, n: nat)
    ensures AllInPhase(WitnessUpdates(e, n), 4) && |WitnessUpdates(e, n)| == n
  {
    if n > 0 {
      WitnessUpdatesPhase(e, n - 1);
    }
  }

  lemma ConcatInOrder(a: seq<Event>, b: seq<Event>, k: nat)
    requires PhasesInOrder(a) && (forall i :: 0 <= i < |a| ==> Phase(a[i]) <= k) && AllInPhase(b, k)
    ensures PhasesInOrder(a + b)
  {
  }

  /** Within an epoch every provider is sampled before any consumer chooses,
      every consumer has chosen and fed back before any consumer updates,
      and all consumer updates come before all witness updates; the epoch
      holds one sample per provider, one feedback and one update per
      consumer, and one update per witness. */
  lemma EpochPhasesInOrder(ps: seq<Provider>, consumers: nat, witnesses: nat, e: nat, draw: (nat, nat) -> real,
                           choice: (nat, nat) -> Result<nat>)
    ensures PhasesInOrder(EpochTrace(ps, consumers, witnesses, e, draw, choice))
    ensures |EpochTrace(ps, consumers, witnesses, e, draw, choice)| == |ps| + 2 * consumers + witnesses
  {
    var s := Samples(e, |ps|);
    var f := Feedbacks(ps, e, consumers, draw, choice);
    var u := ConsumerUpdates(e, consumers);
    var w := WitnessUpdates(e, witnesses);
    SamplesPhase(e, |ps|);
    FeedbacksPhase(ps, e, consumers, draw, choice);
    ConsumerUpdatesPhase(e, consumers);
    WitnessUpdatesPhase(e, witnesses);
    ConcatInOrder(s, f, 2);
    ConcatInOrder(s + f, u, 3);
    ConcatInOrder(s + f + u, w, 4);
  }

  /** Good choices for n + 1 epochs are exactly good choices for n epochs
      and good choices in epoch n. */
  lemma ChoicesGoodSplit(choice: (nat, nat) -> Result<nat>, n: nat, consumers: nat, providerCount: nat)
    ensures ChoicesGood(choice, n + 1, consumers, providerCount) <==>
            ChoicesGood(choice, n, consumers, providerCount) && ChoicesGoodAt(choice, n, consumers, providerCount)
  {
    if ChoicesGood(choice, n, consumers, providerCount) && ChoicesGoodAt(choice, n, consumers, providerCount) {
      forall e: nat, c: nat | e < n + 1 && c < consumers
        ensures GoodChoice(choice(e, c), providerCount)
      {
        if e == n {
          assert GoodChoice(choice(n, c), providerCount);
        }
      }
    }
  }

  /** One bad choice within the first n epochs spoils them. */
  lemma BadChoiceSpoils(choice: (nat, nat) -> Result<nat>, e: nat, c: nat, n: nat, consumers: nat, providerCount: nat)
    requires e < n && c < consumers && !GoodChoice(choice(e, c), providerCount)
    ensures !ChoicesGood(choice, n, consumers, providerCount)
  {
  }

  /** The provider loop of one epoch: sample every provider once, in list
      order, and add each sample to that provider's total. */
  method SampleProviders(ps: seq<Provider>, e: nat, draw: (nat, nat) -> real, trueValues: seq<real>)
    returns (lastValue: seq<real>, newTrue: seq<real>, events: seq<Event>)
    requires |trueValues| == |ps|
    requires forall j :: 0 <= j < |ps| ==> trueValues[j] == TrueTotal(ps, j, e, draw)
    ensures |lastValue| == |ps| && |newTrue| == |ps|
    ensures forall j :: 0 <= j < |ps| ==> lastValue[j] == GetService(ps[j], draw(e, j))
    ensures forall j :: 0 <= j < |ps| ==> newTrue[j] == TrueTotal(ps, j, e + 1, draw)
    ensures events == Samples(e, |ps|)
  {
    lastValue := [];
    newTrue := trueValues;
    events := [];
    for j := 0 to |ps|
      invariant |lastValue| == j && |newTrue| == |ps|
      invariant forall k :: 0 <= k < j ==> lastValue[k] == GetService(ps[k], draw(e, k))
      invariant forall k :: 0 <= k < j ==> newTrue[k] == TrueTotal(ps, k, e + 1, draw)
      invariant forall k :: j <= k < |ps| ==> newTrue[k] == TrueTotal(ps, k, e, draw)
      invariant events == Samples(e, j)
    {
      var v := GetService(ps[j], draw(e, j));
      lastValue := lastValue + [v];
      newTrue := newTrue[j := newTrue[j] + v];
      events := events + [Sample(e, j)];
    }
  }

  /** The first of two exceptions: `a`, unless it is None. */
  function OrElse(a: Option<Error>, b: Option<Error>): Option<Error>
  {
    if a.Some? then a else b
  }

  /** The exception the call an event stands for raises, if any. Sampling
      a provider calls nothing that raises. */
  function Raised(ev: Event, call: Event -> Outcome): Option<Error>
  {
    if !ev.Sample? && call(ev).Fail? then Some(call(ev).error) else None
  }

  /** The exception of the first call of t that raises, if any. */
  function FirstRaised(t: seq<Event>, call: Event -> Outcome): Option<Error>
  {
    if t == [] then None else OrElse(FirstRaised(t[..|t| - 1], call), Raised(t[|t| - 1], call))
  }

  /** No call of t raises. */
  ghost predicate NoneRaises(t: seq<Event>, call: Event -> Outcome)
  {
    forall i :: 0 <= i < |t| ==> Raised(t[i], call).None?
  }

  /** There is a first raising call exactly when some call raises. */
  lemma {:induction false} FirstRaisedNone(t: seq<Event>, call: Event -> Outcome)
    ensures FirstRaised(t, call).None? <==> NoneRaises(t, call)
  {
    if t != [] {
      var front := t[..|t| - 1];
      FirstRaisedNone(front, call);
      assert forall i :: 0 <= i < |front| ==> front[i] == t[i];
      assert t == front + [t[|t| - 1]];
    }
  }

  /** The first raising call of a + b is the first of a, or else the first
      of b. */
  lemma {:induction false} FirstRaisedConcat(a: seq<Event>, b: seq<Event>, call: Event -> Outcome)
    ensures FirstRaised(a + b, call) == OrElse(FirstRaised(a, call), FirstRaised(b, call))
  {
    if b == [] {
      assert a + b == a;
    } else {
      assert (a + b)[..|a + b| - 1] == a + b[..|b| - 1];
      FirstRaisedConcat(a, b[..|b| - 1], call);
    }
  }

  lemma NoneRaisesConcat(a: seq<Event>, b: seq<Event>, call: Event -> Outcome)
    ensures NoneRaises(a + b, call) <==> NoneRaises(a, call) && NoneRaises(b, call)
  {
    FirstRaisedConcat(a, b, call);
    FirstRaisedNone(a + b, call);
    FirstRaisedNone(a, call);
    FirstRaisedNone(b, call);
  }

  /** A trace of one call stops at that call, if it raises. */
  lemma FirstRaisedOne(ev: Event, call: Event -> Outcome)
    ensures FirstRaised([ev], call) == Raised(ev, call)
  {
    assert [ev][..0] == [];
  }

  /** The exception of the first raising call among the registrations of
      the first n consumers: `register_providers`, then `register_witnesses`,
      consumer by consumer. */
  function ConsumerRegistrationFailure(n: nat, call: Event -> Outcome): Option<Error>
  {
    if n == 0 then None
    else OrElse(OrElse(ConsumerRegistrationFailure(n - 1, call), Raised(RegisterProviders(n - 1), call)),
                Raised(RegisterWitnesses(n - 1), call))
  }

  /** The exception of the first raising `register_providers` among the
      first n witnesses. */
  function WitnessRegistrationFailure(n: nat, call: Event -> Outcome): Option<Error>
  {
    if n == 0 then None
    else OrElse(WitnessRegistrationFailure(n - 1, call), Raised(WitnessRegistersProviders(n - 1), call))
  }

  /** The exception of the first raising `update` among the first n
      consumers in epoch e. */
  function ConsumerUpdateFailure(e: nat, n: nat, call: Event -> Outcome): Option<Error>
  {
    if n == 0 then None else OrElse(ConsumerUpdateFailure(e, n - 1, call), Raised(ConsumerUpdate(e, n - 1), call))
  }

  /** The exception of the first raising `update` among the first n
      witnesses in epoch e. */
  function WitnessUpdateFailure(e: nat, n: nat, call: Event -> Outcome): Option<Error>
  {
    if n == 0 then None else OrElse(WitnessUpdateFailure(e, n - 1, call), Raised(WitnessUpdate(e, n - 1), call))
  }

  /** The exception of the registration phase: the consumers' calls come
      first, then the witnesses'. */
  function RegistrationFailure(consumers: nat, witnesses: nat, call: Event -> Outcome): Option<Error>
  {
    OrElse(ConsumerRegistrationFailure(consumers, call), WitnessRegistrationFailure(witnesses, call))
  }

  /** The exception of the update phase of epoch e: the consumers' updates
      come first, then the witnesses'. */
  function UpdatesFailure(e: nat, consumers: nat, witnesses: nat, call: Event -> Outcome): Option<Error>
  {
    OrElse(ConsumerUpdateFailure(e, consumers, call), WitnessUpdateFailure(e, witnesses, call))
  }

  lemma {:induction false} ConsumerRegistrationFailureFirst(n: nat, call: Event -> Outcome)
    ensures ConsumerRegistrationFailure(n, call) == FirstRaised(ConsumerRegistrations(n), call)
  {
    if n > 0 {
      var a, b := RegisterProviders(n - 1), RegisterWitnesses(n - 1);
      ConsumerRegistrationFailureFirst(n - 1, call);
      assert ConsumerRegistrations(n) == ConsumerRegistrations(n - 1) + [a] + [b];
      FirstRaisedConcat(ConsumerRegistrations(n - 1), [a], call);
      FirstRaisedConcat(ConsumerRegistrations(n - 1) + [a], [b], call);
      FirstRaisedOne(a, call);
      FirstRaisedOne(b, call);
    }
  }

  lemma {:induction false} WitnessRegistrationFailureFirst(n: nat, call: Event -> Outcome)
    ensures WitnessRegistrationFailure(n, call) == FirstRaised(WitnessRegistrations(n), call)
  {
    if n > 0 {
      WitnessRegistrationFailureFirst(n - 1, call);
      FirstRaisedConcat(WitnessRegistrations(n - 1), [WitnessRegistersProviders(n - 1)], call);
      FirstRaisedOne(WitnessRegistersProviders(n - 1), call);
    }
  }

  lemma {:induction false} ConsumerUpdateFailureFirst(e: nat, n: nat, call: Event -> Outcome)
    ensures ConsumerUpdateFailure(e, n, call) == FirstRaised(ConsumerUpdates(e, n), call)
  {
    if n > 0 {
      ConsumerUpdateFailureFirst(e, n - 1, call);
      FirstRaisedConcat(ConsumerUpdates(e, n - 1), [ConsumerUpdate(e, n - 1)], call);
      FirstRaisedOne(ConsumerUpdate(e, n - 1), call);
    }
  }

  lemma {:induction false} WitnessUpdateFailureFirst(e: nat, n: nat, call: Event -> Outcome)
    ensures WitnessUpdateFailure(e, n, call) == FirstRaised(WitnessUpdates(e, n), call)
  {
    if n > 0 {
      WitnessUpdateFailureFirst(e, n - 1, call);
      FirstRaisedConcat(WitnessUpdates(e, n - 1), [WitnessUpdate(e, n - 1)], call);
      FirstRaisedOne(WitnessUpdate(e, n - 1), call);
    }
  }

  /** The registration phase raises the exception of the first raising
      call of its trace; it gets through exactly when no call raises. */
  lemma RegistrationFailureFirst(consumers: nat, witnesses: nat, call: Event -> Outcome)
    ensures RegistrationFailure(consumers, witnesses, call) == FirstRaised(RegistrationTrace(consumers, witnesses), call)
    ensures RegistrationFailure(consumers, witnesses, call).None? <==> NoneRaises(RegistrationTrace(consumers, witnesses), call)
  {
    ConsumerRegistrationFailureFirst(consumers, call);
    WitnessRegistrationFailureFirst(witnesses, call);
    FirstRaisedConcat(ConsumerRegistrations(consumers), WitnessRegistrations(witnesses), call);
    FirstRaisedNone(RegistrationTrace(consumers, witnesses), call);
  }

  /** The update phase of an epoch raises the exception of the first
      raising `update` of its trace; it gets through exactly when none
      raises. */
  lemma UpdatesFailureFirst(e: nat, consumers: nat, witnesses: nat, call: Event -> Outcome)
    ensures UpdatesFailure(e, consumers, witnesses, call) == FirstRaised(ConsumerUpdates(e, consumers) + WitnessUpdates(e, witnesses), call)
    ensures UpdatesFailure(e, consumers, witnesses, call).None? <==> NoneRaises(ConsumerUpdates(e, consumers) + WitnessUpdates(e, witnesses), call)
  {
    ConsumerUpdateFailureFirst(e, consumers, call);
    WitnessUpdateFailureFirst(e, witnesses, call);
    FirstRaisedConcat(ConsumerUpdates(e, consumers), WitnessUpdates(e, witnesses), call);
    FirstRaisedNone(ConsumerUpdates(e, consumers) + WitnessUpdates(e, witnesses), call);
  }

  /** The exception of the first of the first n consumers of epoch e whose
      choice is bad or whose `update_provider` raises. */
  function FeedbackFailure(ps: seq<Provider>, e: nat, n: nat, draw: (nat, nat) -> real,
                           choice: (nat, nat) -> Result<nat>, call: Event -> Outcome): Option<Error>
  {
    if n == 0 then None
    else
      OrElse(FeedbackFailure(ps, e, n - 1, draw, choice, call),
             if !GoodChoice(choice(e, n - 1), |ps|) then Some(ChoiceError(choice(e, n - 1)))
             else Raised(Feedback(e, n - 1, Chosen(choice(e, n - 1)), Gain(ps, choice(e, n - 1), e, draw)), call))
  }

  /** The exception of epoch e: the first failing consumer, or else the
      first raising consumer or witness update. */
  function EpochFailure(ps: seq<Provider>, consumers: nat, witnesses: nat, e: nat, draw: (nat, nat) -> real,
                        choice: (nat, nat) -> Result<nat>, call: Event -> Outcome): Option<Error>
  {
    OrElse(FeedbackFailure(ps, e, consumers, draw, choice, call), UpdatesFailure(e, consumers, witnesses, call))
  }

  /** The exception of the first failing epoch among the first n. */
  function EpochsFailure(ps: seq<Provider>, consumers: nat, witnesses: nat, n: nat, draw: (nat, nat) -> real,
                         choice: (nat, nat) -> Result<nat>, call: Event -> Outcome): Option<Error>
  {
    if n == 0 then None
    else OrElse(EpochsFailure(ps, consumers, witnesses, n - 1, draw, choice, call),
                EpochFailure(ps, consumers, witnesses, n - 1, draw, choice, call))
  }

  /** The exception `run` raises, if any: the first raising registration,
      or else the first failing epoch. */
  function RunFailure(ps: seq<Provider>, consumers: nat, witnesses: nat, epochs: nat, draw: (nat, nat) -> real,
                      choice: (nat, nat) -> Result<nat>, call: Event -> Outcome): Option<Error>
  {
    OrElse(RegistrationFailure(consumers, witnesses, call), EpochsFailure(ps, consumers, witnesses, epochs, draw, choice, call))
  }

  lemma {:induction false} ConsumerRegistrationFailureKept(m: nat, n: nat, call: Event -> Outcome)
    requires m <= n && ConsumerRegistrationFailure(m, call).Some?
    ensures ConsumerRegistrationFailure(n, call) == ConsumerRegistrationFailure(m, call)
  {
    if m < n {
      ConsumerRegistrationFailureKept(m, n - 1, call);
    }
  }

  lemma {:induction false} WitnessRegistrationFailureKept(m: nat, n: nat, call: Event -> Outcome)
    requires m <= n && WitnessRegistrationFailure(m, call).Some?
    ensures WitnessRegistrationFailure(n, call) == WitnessRegistrationFailure(m, call)
  {
    if m < n {
      WitnessRegistrationFailureKept(m, n - 1, call);
    }
  }

  lemma {:induction false} ConsumerUpdateFailureKept(e: nat, m: nat, n: nat, call: Event -> Outcome)
    requires m <= n && ConsumerUpdateFailure(e, m, call).Some?
    ensures ConsumerUpdateFailure(e, n, call) == ConsumerUpdateFailure(e, m, call)
  {
    if m < n {
      ConsumerUpdateFailureKept(e, m, n - 1, call);
    }
  }

  lemma {:induction false} WitnessUpdateFailureKept(e: nat, m: nat, n: nat, call: Event -> Outcome)
    requires m <= n && WitnessUpdateFailure(e, m, call).Some?
    ensures WitnessUpdateFailure(e, n, call) == WitnessUpdateFailure(e, m, call)
  {
    if m < n {
      WitnessUpdateFailureKept(e, m, n - 1, call);
    }
  }

  lemma {:induction false} FeedbackFailureKept(ps: seq<Provider>, e: nat, m: nat, n: nat, draw: (nat, nat) -> real,
                                               choice: (nat, nat) -> Result<nat>, call: Event -> Outcome)
    requires m <= n && FeedbackFailure(ps, e, m, draw, choice, call).Some?
    ensures FeedbackFailure(ps, e, n, draw, choice, call) == FeedbackFailure(ps, e, m, draw, choice, call)
  {
    if m < n {
      FeedbackFailureKept(ps, e, m, n - 1, draw, choice, call);
    }
  }

  lemma {:induction false} EpochsFailureKept(ps: seq<Provider>, consumers: nat, witnesses: nat, m: nat, n: nat,
                                             draw: (nat, nat) -> real, choice: (nat, nat) -> Result<nat>,
                                             call: Event -> Outcome)
    requires m <= n && EpochsFailure(ps, consumers, witnesses, m, draw, choice, call).Some?
    ensures EpochsFailure(ps, consumers, witnesses, n, draw, choice, call)
            == EpochsFailure(ps, consumers, witnesses, m, draw, choice, call)
  {
    if m < n {
      EpochsFailureKept(ps, consumers, witnesses, m, n - 1, draw, choice, call);
    }
  }

  lemma {:induction false} SamplesRaiseNothing(e: nat, n: nat, call: Event -> Outcome)
    ensures NoneRaises(Samples(e, n), call)
  {
    if n > 0 {
      SamplesRaiseNothing(e, n - 1, call);
      NoneRaisesConcat(Samples(e, n - 1), [Sample(e, n - 1)], call);
    }
  }

  /** The consumers of an epoch all get through exactly when every choice is
      good and no `update_provider` raises. */
  lemma {:induction false} FeedbackFailureNone(ps: seq<Provider>, e: nat, n: nat, draw: (nat, nat) -> real,
                                               choice: (nat, nat) -> Result<nat>, call: Event -> Outcome)
    ensures FeedbackFailure(ps, e, n, draw, choice, call).None? <==>
            ChoicesGoodAt(choice, e, n, |ps|) && NoneRaises(Feedbacks(ps, e, n, draw, choice), call)
  {
    if n > 0 {
      FeedbackFailureNone(ps, e, n - 1, draw, choice, call);
      var ev := Feedback(e, n - 1, Chosen(choice(e, n - 1)), Gain(ps, choice(e, n - 1), e, draw));
      assert Feedbacks(ps, e, n, draw, choice) == Feedbacks(ps, e, n - 1, draw, choice) + [ev];
      NoneRaisesConcat(Feedbacks(ps, e, n - 1, draw, choice), [ev], call);
      assert [ev][0] == ev;
      if ChoicesGoodAt(choice, e, n - 1, |ps|) && GoodChoice(choice(e, n - 1), |ps|) {
        forall c: nat | c < n
          ensures GoodChoice(choice(e, c), |ps|)
        {
          if c < n - 1 {
            assert GoodChoice(choice(e, c), |ps|);
          }
        }
      } else if !GoodChoice(choice(e, n - 1), |ps|) {
        assert !ChoicesGoodAt(choice, e, n, |ps|);
      } else {
        assert !ChoicesGoodAt(choice, e, n, |ps|) by {
          var c: nat :| c < n - 1 && !GoodChoice(choice(e, c), |ps|);
        }
      }
    }
  }

  /** Epoch e gets through: every choice in it is good and no call in it
      raises. */
  ghost predicate EpochGood(ps: seq<Provider>, consumers: nat, witnesses: nat, e: nat, draw: (nat, nat) -> real,
                            choice: (nat, nat) -> Result<nat>, call: Event -> Outcome)
  {
    ChoicesGoodAt(choice, e, consumers, |ps|) && NoneRaises(EpochTrace(ps, consumers, witnesses, e, draw, choice), call)
  }

  /** An epoch gets through exactly when every choice in it is good and no
      call in it raises. */
  lemma EpochFailureNone(ps: seq<Provider>, consumers: nat, witnesses: nat, e: nat, draw: (nat, nat) -> real,
                         choice: (nat, nat) -> Result<nat>, call: Event -> Outcome)
    ensures EpochFailure(ps, consumers, witnesses, e, draw, choice, call).None? <==>
            EpochGood(ps, consumers, witnesses, e, draw, choice, call)
  {
    var s := Samples(e, |ps|);
    var f := Feedbacks(ps, e, consumers, draw, choice);
    var u := ConsumerUpdates(e, consumers);
    var w := WitnessUpdates(e, witnesses);
    FeedbackFailureNone(ps, e, consumers, draw, choice, call);
    UpdatesFailureFirst(e, consumers, witnesses, call);
    SamplesRaiseNothing(e, |ps|, call);
    NoneRaisesConcat(s, f, call);
    NoneRaisesConcat(s + f, u, call);
    NoneRaisesConcat(s + f + u, w, call);
    NoneRaisesConcat(u, w, call);
  }

  /** Epochs that all get through chose well throughout. */
  lemma GoodEpochsChooseWell(ps: seq<Provider>, consumers: nat, witnesses: nat, n: nat, draw: (nat, nat) -> real,
                             choice: (nat, nat) -> Result<nat>, call: Event -> Outcome)
    requires forall e: nat :: e < n ==> EpochGood(ps, consumers, witnesses, e, draw, choice, call)
    ensures ChoicesGood(choice, n, consumers, |ps|)
  {
    forall e: nat, c: nat | e < n && c < consumers
      ensures GoodChoice(choice(e, c), |ps|)
    {
      assert EpochGood(ps, consumers, witnesses, e, draw, choice, call);
    }
  }

  /** The first n epochs get through exactly when each of them does. */
  lemma {:induction false} EpochsFailureNone(ps: seq<Provider>, consumers: nat, witnesses: nat, n: nat,
                                             draw: (nat, nat) -> real, choice: (nat, nat) -> Result<nat>,
                                             call: Event -> Outcome)
    ensures EpochsFailure(ps, consumers, witnesses, n, draw, choice, call).None? <==>
            forall e: nat :: e < n ==> EpochFailure(ps, consumers, witnesses, e, draw, choice, call).None?
  {
    if n > 0 {
      EpochsFailureNone(ps, consumers, witnesses, n - 1, draw, choice, call);
    }
  }

  /** The first n epochs get through exactly when in each of them every
      choice is good and no call raises. */
  lemma EpochsGood(ps: seq<Provider>, consumers: nat, witnesses: nat, n: nat, draw: (nat, nat) -> real,
                   choice: (nat, nat) -> Result<nat>, call: Event -> Outcome)
    ensures EpochsFailure(ps, consumers, witnesses, n, draw, choice, call).None? <==>
            forall e: nat :: e < n ==> EpochGood(ps, consumers, witnesses, e, draw, choice, call)
  {
    EpochsFailureNone(ps, consumers, witnesses, n, draw, choice, call);
    forall e: nat | e < n
      ensures EpochFailure(ps, consumers, witnesses, e, draw, choice, call).None?
              <==> EpochGood(ps, consumers, witnesses, e, draw, choice, call)
    {
      EpochFailureNone(ps, consumers, witnesses, e, draw, choice, call);
    }
  }

  /** `run` completes exactly when no registration call raises and every
      epoch gets through: every choice names a listed provider and no
      `update_provider` or `update` call raises. */
  lemma RunFailureNone(ps: seq<Provider>, consumers: nat, witnesses: nat, epochs: nat, draw: (nat, nat) -> real,
                       choice: (nat, nat) -> Result<nat>, call: Event -> Outcome)
    ensures RunFailure(ps, consumers, witnesses, epochs, draw, choice, call).None? <==>
            NoneRaises(RegistrationTrace(consumers, witnesses), call)
            && forall e: nat :: e < epochs ==> EpochGood(ps, consumers, witnesses, e, draw, choice, call)
  {
    RegistrationFailureFirst(consumers, witnesses, call);
    EpochsGood(ps, consumers, witnesses, epochs, draw, choice, call);
  }

  /** A trust method whose `update` always raises (Travos, MET) never gets
      the run past its first epoch, whatever it chooses. */
  lemma RaisingUpdateStopsRun(ps: seq<Provider>, consumers: nat, witnesses: nat, epochs: nat,
                              draw: (nat, nat) -> real, choice: (nat, nat) -> Result<nat>, call: Event -> Outcome)
    requires consumers > 0 && epochs > 0
    requires forall e: nat, c: nat :: call(ConsumerUpdate(e, c)).Fail?
    ensures EpochsFailure(ps, consumers, witnesses, 1, draw, choice, call).Some?
    ensures RunFailure(ps, consumers, witnesses, epochs, draw, choice, call).Some?
  {
    assert ConsumerUpdateFailure(0, consumers, call).Some?;
    EpochsFailureKept(ps, consumers, witnesses, 1, epochs, draw, choice, call);
  }

  /** A trust method whose `update_provider` always raises (the base
      consumer's ToDoException) never gets the run past its first epoch. */
  lemma RaisingFeedbackStopsRun(ps: seq<Provider>, consumers: nat, witnesses: nat, epochs: nat,
                                draw: (nat, nat) -> real, choice: (nat, nat) -> Result<nat>, call: Event -> Outcome)
    requires consumers > 0 && epochs > 0
    requires forall e: nat, c: nat, j: nat, v: real :: call(Feedback(e, c, j, v)).Fail?
    ensures EpochsFailure(ps, consumers, witnesses, 1, draw, choice, call).Some?
    ensures RunFailure(ps, consumers, witnesses, epochs, draw, choice, call).Some?
  {
    assert FeedbackFailure(ps, 0, consumers, draw, choice, call).Some?;
    EpochsFailureKept(ps, consumers, witnesses, 1, epochs, draw, choice, call);
  }

  /** The calls as to_trust/testbed/simulation.py:54 makes them:
      `witness.update(_step)` passes an argument that `Witness.update` does
      not take, so every witness update raises TypeError. */
  function AsWrittenCalls(call: Event -> Outcome): (c: Event -> Outcome)
    ensures forall e: nat, w: nat :: c(WitnessUpdate(e, w)) == Fail(TypeError)
    ensures forall ev: Event :: !ev.WitnessUpdate? ==> c(ev) == call(ev)
  {
    (ev: Event) => if ev.WitnessUpdate? then Fail(TypeError) else call(ev)
  }

  /** With a witness, the run as written never gets past its first epoch. */
  lemma AsWrittenWitnessUpdateRaises(ps: seq<Provider>, consumers: nat, witnesses: nat, epochs: nat,
                                     draw: (nat, nat) -> real, choice: (nat, nat) -> Result<nat>,
                                     call: Event -> Outcome)
    requires witnesses > 0 && epochs > 0
    ensures EpochsFailure(ps, consumers, witnesses, 1, draw, choice, AsWrittenCalls(call)).Some?
    ensures RunFailure(ps, consumers, witnesses, epochs, draw, choice, AsWrittenCalls(call)).Some?
  {
    var written := AsWrittenCalls(call);
    assert Raised(WitnessUpdate(0, witnesses - 1), written).Some?;
    assert WitnessUpdateFailure(0, witnesses, written).Some?;
    EpochsFailureKept(ps, consumers, witnesses, 1, epochs, draw, choice, written);
  }

  /** The calls with `witness.update()` as it is meant: a witness update
      never raises (Witnesses.Witness.Update and
      RandomWitnesses.RandomWitness.Update have no failure). */
  function CorrectedCalls(call: Event -> Outcome): (c: Event -> Outcome)
    ensures forall e: nat, w: nat :: c(WitnessUpdate(e, w)) == Pass
    ensures forall ev: Event :: !ev.WitnessUpdate? ==> c(ev) == call(ev)
  {
    (ev: Event) => if ev.WitnessUpdate? then Pass else call(ev)
  }

  lemma {:induction false} FeedbackFailureCorrected(ps: seq<Provider>, e: nat, n: nat, draw: (nat, nat) -> real,
                                                    choice: (nat, nat) -> Result<nat>, call: Event -> Outcome)
    ensures FeedbackFailure(ps, e, n, draw, choice, CorrectedCalls(call)) == FeedbackFailure(ps, e, n, draw, choice, call)
  {
    if n > 0 {
      FeedbackFailureCorrected(ps, e, n - 1, draw, choice, call);
    }
  }

  lemma {:induction false} ConsumerUpdateFailureCorrected(e: nat, n: nat, call: Event -> Outcome)
    ensures ConsumerUpdateFailure(e, n, CorrectedCalls(call)) == ConsumerUpdateFailure(e, n, call)
  {
    if n > 0 {
      ConsumerUpdateFailureCorrected(e, n - 1, call);
    }
  }

  lemma {:induction false} WitnessUpdateFailureCorrected(e: nat, n: nat, call: Event -> Outcome)
    ensures WitnessUpdateFailure(e, n, CorrectedCalls(call)).None?
  {
    if n > 0 {
      WitnessUpdateFailureCorrected(e, n - 1, call);
    }
  }

  /** With the corrected witness updates, an epoch fails exactly where its
      consumers do: at the first bad choice or raising `update_provider`,
      or else at the first raising consumer `update`. */
  lemma CorrectedWitnessUpdates(ps: seq<Provider>, consumers: nat, witnesses: nat, e: nat,
                                draw: (nat, nat) -> real, choice: (nat, nat) -> Result<nat>, call: Event -> Outcome)
    ensures EpochFailure(ps, consumers, witnesses, e, draw, choice, CorrectedCalls(call))
            == OrElse(FeedbackFailure(ps, e, consumers, draw, choice, call), FirstRaised(ConsumerUpdates(e, consumers), call))
  {
    FeedbackFailureCorrected(ps, e, consumers, draw, choice, call);
    ConsumerUpdateFailureCorrected(e, consumers, call);
    WitnessUpdateFailureCorrected(e, witnesses, call);
    ConsumerUpdateFailureFirst(e, consumers, call);
  }

  /** The consumer loop of one epoch: each consumer in turn chooses, is
      credited with the chosen provider's sample of this epoch and reports it
      back with `update_provider`. The first bad choice or raising
      `update_provider` ends the run with its exception. */
  method CreditConsumers(ps: seq<Provider>, consumers: nat, e: nat, draw: (nat, nat) -> real,
                         choice: (nat, nat) -> Result<nat>, call: Event -> Outcome,
                         lastValue: seq<real>, scores: seq<real>)
    returns (r: Result<(seq<real>, seq<Event>)>)
    requires |lastValue| == |ps| && |scores| == consumers
    requires forall j :: 0 <= j < |ps| ==> lastValue[j] == GetService(ps[j], draw(e, j))
    requires forall c :: 0 <= c < consumers ==> scores[c] == ConsumerTotal(ps, c, e, draw, choice)
    ensures r.Err? <==> FeedbackFailure(ps, e, consumers, draw, choice, call).Some?
    ensures r.Err? ==> r.error == FeedbackFailure(ps, e, consumers, draw, choice, call).value
    ensures r.Ok? <==> ChoicesGoodAt(choice, e, consumers, |ps|)
                       && NoneRaises(Feedbacks(ps, e, consumers, draw, choice), call)
    ensures r.Ok? ==> |r.value.0| == consumers
    ensures r.Ok? ==> forall c :: 0 <= c < consumers ==> r.value.0[c] == ConsumerTotal(ps, c, e + 1, draw, choice)
    ensures r.Ok? ==> r.value.1 == Feedbacks(ps, e, consumers, draw, choice)
  {
    FeedbackFailureNone(ps, e, consumers, draw, choice, call);
    var newScores := scores;
    var events: seq<Event> := [];
    for c := 0 to consumers
      invariant |newScores| == consumers
      invariant FeedbackFailure(ps, e, c, draw, choice, call).None?
      invariant forall k :: 0 <= k < c ==> newScores[k] == ConsumerTotal(ps, k, e + 1, draw, choice)
      invariant forall k :: c <= k < consumers ==> newScores[k] == scores[k]
      invariant events == Feedbacks(ps, e, c, draw, choice)
    {
      var chosen := choice(e, c);
      if chosen.Err? || chosen.value >= |ps| {
        FeedbackFailureKept(ps, e, c + 1, consumers, draw, choice, call);
        return Err(ChoiceError(chosen));
      }
      var j := chosen.value;
      newScores := newScores[c := newScores[c] + lastValue[j]];
      var ev := Feedback(e, c, j, lastValue[j]);
      if Raised(ev, call).Some? {
        FeedbackFailureKept(ps, e, c + 1, consumers, draw, choice, call);
        return Err(Raised(ev, call).value);
      }
      events := events + [ev];
    }
    r := Ok((newScores, events));
  }

  /** The consumer loop at the end of an epoch: `update` of each consumer
      in turn, stopping at the first that raises. */
  method ConsumersUpdate(e: nat, consumers: nat, call: Event -> Outcome) returns (r: Outcome)
    ensures r.Fail? <==> ConsumerUpdateFailure(e, consumers, call).Some?
    ensures r.Fail? ==> r.error == ConsumerUpdateFailure(e, consumers, call).value
  {
    for c := 0 to consumers
      invariant ConsumerUpdateFailure(e, c, call).None?
    {
      var ev := ConsumerUpdate(e, c);
      if Raised(ev, call).Some? {
        ConsumerUpdateFailureKept(e, c + 1, consumers, call);
        return Fail(Raised(ev, call).value);
      }
    }
    r := Pass;
  }

  /** The witness loop at the end of an epoch: `update` of each witness in
      turn, stopping at the first that raises. */
  method WitnessesUpdate(e: nat, witnesses: nat, call: Event -> Outcome) returns (r: Outcome)
    ensures r.Fail? <==> WitnessUpdateFailure(e, witnesses, call).Some?
    ensures r.Fail? ==> r.error == WitnessUpdateFailure(e, witnesses, call).value
  {
    for w := 0 to witnesses
      invariant WitnessUpdateFailure(e, w, call).None?
    {
      var ev := WitnessUpdate(e, w);
      if Raised(ev, call).Some? {
        WitnessUpdateFailureKept(e, w + 1, witnesses, call);
        return Fail(Raised(ev, call).value);
      }
    }
    r := Pass;
  }

  /** The end of an epoch: every consumer updates, then every witness; the
      first call that raises ends the run with its exception, so the update
      phase completes exactly when none of its calls raises. */
  method UpdateAll(e: nat, consumers: nat, witnesses: nat, call: Event -> Outcome) returns (r: Outcome, events: seq<Event>)
    ensures r.Fail? <==> UpdatesFailure(e, consumers, witnesses, call).Some?
    ensures r.Fail? ==> r.error == UpdatesFailure(e, consumers, witnesses, call).value
    ensures r.Pass? <==> NoneRaises(ConsumerUpdates(e, consumers) + WitnessUpdates(e, witnesses), call)
    ensures r.Pass? ==> events == ConsumerUpdates(e, consumers) + WitnessUpdates(e, witnesses)
  {
    UpdatesFailureFirst(e, consumers, witnesses, call);
    events := [];
    r := ConsumersUpdate(e, consumers, call);
    if r.Fail? {
      return;
    }
    r := WitnessesUpdate(e, witnesses, call);
    if r.Fail? {
      return;
    }
    events := ConsumerUpdates(e, consumers) + WitnessUpdates(e, witnesses);
  }

  /** One epoch of `run`: from the totals after e epochs to the totals after
      e + 1, with what the epoch did, or the exception of the epoch's first
      bad choice or raising call. */
  method RunEpoch(ps: seq<Provider>, consumers: nat, witnesses: nat, e: nat, draw: (nat, nat) -> real,
                  choice: (nat, nat) -> Result<nat>, call: Event -> Outcome, trueValues: seq<real>, scores: seq<real>)
    returns (r: Result<(seq<real>, seq<real>, seq<Event>)>)
    requires |trueValues| == |ps| && |scores| == consumers
    requires forall j :: 0 <= j < |ps| ==> trueValues[j] == TrueTotal(ps, j, e, draw)
    requires forall c :: 0 <= c < consumers ==> scores[c] == ConsumerTotal(ps, c, e, draw, choice)
    ensures r.Err? <==> EpochFailure(ps, consumers, witnesses, e, draw, choice, call).Some?
    ensures r.Err? ==> r.error == EpochFailure(ps, consumers, witnesses, e, draw, choice, call).value
    ensures r.Ok? <==> EpochGood(ps, consumers, witnesses, e, draw, choice, call)
    ensures r.Ok? ==> |r.value.0| == |ps| && |r.value.1| == consumers
    ensures r.Ok? ==> forall j :: 0 <= j < |ps| ==> r.value.0[j] == TrueTotal(ps, j, e + 1, draw)
    ensures r.Ok? ==> forall c :: 0 <= c < consumers ==> r.value.1[c] == ConsumerTotal(ps, c, e + 1, draw, choice)
    ensures r.Ok? ==> r.value.2 == EpochTrace(ps, consumers, witnesses, e, draw, choice)
  {
    EpochFailureNone(ps, consumers, witnesses, e, draw, choice, call);
    var lastValue, sampled, samples := SampleProviders(ps, e, draw, trueValues);
    var credited := CreditConsumers(ps, consumers, e, draw, choice, call, lastValue, scores);
    if credited.Err? {
      return Err(credited.error);
    }
    var updated, updates := UpdateAll(e, consumers, witnesses, call);
    if updated.Fail? {
      return Err(updated.error);
    }
    r := Ok((sampled, credited.value.0, samples + credited.value.1 + updates));
  }

  /** What `run` returns (as totals positioned like the lists), together
      with the trace of what it did. */
  datatype RunResult = RunResult(scores: seq<real>, trueValues: seq<real>, trace: seq<Event>)

  /** `run`. It raises the exception of the first raising registration or
      else of the first failing epoch, so it completes exactly when no
      registration raises and every epoch gets through; then every choice
      named a listed provider, each total is the sum described above, the
      trace is the registration phase followed by the epochs in order, and
      zero epochs give all-zero totals. */
  method Run(ps: seq<Provider>, consumers: nat, witnesses: nat, epochs: nat,
             draw: (nat, nat) -> real, choice: (nat, nat) -> Result<nat>, call: Event -> Outcome)
    returns (r: Result<RunResult>)
    ensures r.Err? <==> RunFailure(ps, consumers, witnesses, epochs, draw, choice, call).Some?
    ensures r.Err? ==> r.error == RunFailure(ps, consumers, witnesses, epochs, draw, choice, call).value
    ensures r.Ok? <==> NoneRaises(RegistrationTrace(consumers, witnesses), call)
                       && forall e: nat :: e < epochs ==> EpochGood(ps, consumers, witnesses, e, draw, choice, call)
    ensures r.Ok? ==>
      && ChoicesGood(choice, epochs, consumers, |ps|)
      && |r.value.scores| == consumers
      && |r.value.trueValues| == |ps|
      && (forall c :: 0 <= c < consumers ==> r.value.scores[c] == ConsumerTotal(ps, c, epochs, draw, choice))
      && (forall j :: 0 <= j < |ps| ==> r.value.trueValues[j] == TrueTotal(ps, j, epochs, draw))
      && r.value.trace == RegistrationTrace(consumers, witnesses)
                          + EpochsTrace(ps, consumers, witnesses, epochs, draw, choice)
    ensures r.Ok? && epochs == 0 ==>
      (forall c :: 0 <= c < consumers ==> r.value.scores[c] == 0.0)
      && (forall j :: 0 <= j < |ps| ==> r.value.trueValues[j] == 0.0)
  {
    var registered, registration := Register(consumers, witnesses, call);
    if registered.Fail? {
      return Err(registered.error);
    }
    var totals := RunEpochs(ps, consumers, witnesses, epochs, draw, choice, call);
    if totals.Err? {
      return Err(totals.error);
    }
    r := Ok(RunResult(totals.value.1, totals.value.0, registration + totals.value.2));
  }

  /** The epoch loop of `run`: the provider totals, the consumer totals and
      the trace of the epochs, or the exception of the first failing epoch. */
  method RunEpochs(ps: seq<Provider>, consumers: nat, witnesses: nat, epochs: nat,
                   draw: (nat, nat) -> real, choice: (nat, nat) -> Result<nat>, call: Event -> Outcome)
    returns (r: Result<(seq<real>, seq<real>, seq<Event>)>)
    ensures r.Err? <==> EpochsFailure(ps, consumers, witnesses, epochs, draw, choice, call).Some?
    ensures r.Err? ==> r.error == EpochsFailure(ps, consumers, witnesses, epochs, draw, choice, call).value
    ensures r.Ok? <==> forall e: nat :: e < epochs ==> EpochGood(ps, consumers, witnesses, e, draw, choice, call)
    ensures r.Ok? ==>
      && ChoicesGood(choice, epochs, consumers, |ps|)
      && |r.value.0| == |ps| && |r.value.1| == consumers
      && (forall j :: 0 <= j < |ps| ==> r.value.0[j] == TrueTotal(ps, j, epochs, draw))
      && (forall c :: 0 <= c < consumers ==> r.value.1[c] == ConsumerTotal(ps, c, epochs, draw, choice))
      && r.value.2 == EpochsTrace(ps, consumers, witnesses, epochs, draw, choice)
  {
    var trueValues := seq(|ps|, _ => 0.0);
    var scores := seq(consumers, _ => 0.0);
    var trace := [];
    for e := 0 to epochs
      invariant |trueValues| == |ps| && |scores| == consumers
      invariant EpochsFailure(ps, consumers, witnesses, e, draw, choice, call).None?
      invariant forall j :: 0 <= j < |ps| ==> trueValues[j] == TrueTotal(ps, j, e, draw)
      invariant forall c :: 0 <= c < consumers ==> scores[c] == ConsumerTotal(ps, c, e, draw, choice)
      invariant trace == EpochsTrace(ps, consumers, witnesses, e, draw, choice)
    {
      var epoch := RunEpoch(ps, consumers, witnesses, e, draw, choice, call, trueValues, scores);
      if epoch.Err? {
        EpochsFailureKept(ps, consumers, witnesses, e + 1, epochs, draw, choice, call);
        EpochsGood(ps, consumers, witnesses, epochs, draw, choice, call);
        return Err(epoch.error);
      }
      trueValues, scores := epoch.value.0, epoch.value.1;
      trace := trace + epoch.value.2;
    }
    EpochsGood(ps, consumers, witnesses, epochs, draw, choice, call);
    GoodEpochsChooseWell(ps, consumers, witnesses, epochs, draw, choice, call);
    r := Ok((trueValues, scores, trace));
  }

  /** The consumer loop of the registration: each consumer registers the
      providers and then the witnesses, stopping at the first call that
      raises. */
  method ConsumersRegister(consumers: nat, call: Event -> Outcome) returns (r: Outcome)
    ensures r.Fail? <==> ConsumerRegistrationFailure(consumers, call).Some?
    ensures r.Fail? ==> r.error == ConsumerRegistrationFailure(consumers, call).value
  {
    for c := 0 to consumers
      invariant ConsumerRegistrationFailure(c, call).None?
    {
      var providersCall, witnessesCall := RegisterProviders(c), RegisterWitnesses(c);
      if Raised(providersCall, call).Some? {
        ConsumerRegistrationFailureKept(c + 1, consumers, call);
        return Fail(Raised(providersCall, call).value);
      }
      if Raised(witnessesCall, call).Some? {
        ConsumerRegistrationFailureKept(c + 1, consumers, call);
        return Fail(Raised(witnessesCall, call).value);
      }
    }
    r := Pass;
  }

  /** The witness loop of the registration: each witness registers the
      providers, stopping at the first call that raises. */
  method WitnessesRegister(witnesses: nat, call: Event -> Outcome) returns (r: Outcome)
    ensures r.Fail? <==> WitnessRegistrationFailure(witnesses, call).Some?
    ensures r.Fail? ==> r.error == WitnessRegistrationFailure(witnesses, call).value
  {
    for w := 0 to witnesses
      invariant WitnessRegistrationFailure(w, call).None?
    {
      var ev := WitnessRegistersProviders(w);
      if Raised(ev, call).Some? {
        WitnessRegistrationFailureKept(w + 1, witnesses, call);
        return Fail(Raised(ev, call).value);
      }
    }
    r := Pass;
  }

  /** The registration before the first epoch: the consumers' calls, then
      the witnesses'; the first call that raises ends the run with its
      exception, so the registration completes exactly when none of its
      calls raises. */
  method Register(consumers: nat, witnesses: nat, call: Event -> Outcome) returns (r: Outcome, events: seq<Event>)
    ensures r.Fail? <==> RegistrationFailure(consumers, witnesses, call).Some?
    ensures r.Fail? ==> r.error == RegistrationFailure(consumers, witnesses, call).value
    ensures r.Pass? <==> NoneRaises(RegistrationTrace(consumers, witnesses), call)
    ensures r.Pass? ==> events == RegistrationTrace(consumers, witnesses)
  {
    RegistrationFailureFirst(consumers, witnesses, call);
    events := [];
    r := ConsumersRegister(consumers, call);
    if r.Fail? {
      return;
    }
    r := WitnessesRegister(witnesses, call);
    if r.Fail? {
      return;
    }
    events := RegistrationTrace(consumers, witnesses);
  }
}
