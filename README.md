# Trust or not to Trust — a Dafny model of the trust testbed

This project models the core of the *Trust or not to Trust* testbed. The
testbed is a simulation in which **consumers** choose among **service
providers** and ask **witnesses** for their opinions about those providers.
Each consumer follows one trust-computing method, and the simulation measures
how well the methods pick good providers when witnesses lie, collude in rings
or change their honesty over time.

The modules follow the package layout:

- `Errors`, `Collections`, `Arith` (errors.dfy, collections.dfy, arith.dfy): exceptions as `Result`/`Outcome` values, insertion-ordered dicts (`ODict`), sums, "first maximal element", real-arithmetic facts;
- `Agents` (agent.dfy): agent identities and the shared collusion-ring list;
- `Providers` (provider.dfy): providers, their sampled parameters and a service call;
- `Witnesses`, `RandomWitnesses` (witness.dfy, random_witness.dfy): honest, lying and scheduled witnesses, and the beta-reputation witness;
- `Consumers` (consumer.dfy): the base consumer: registration, score cache, default choice;
- `Acts`, `Iteas`, `TravosMethod`, `Mets` (act.dfy, itea.dfy, travos.dfy, met.dfy): the ACT, ITEA, TRAVOS and MET trust methods;
- `Simulations` (simulation.dfy): registration and the epoch loop;
- `TestbedAgents`, `ExampleNtcm` (testbed_agents.dfy, example_ntcm.dfy): the older agent revision under `testbed/` and its example trust method;
- `Mae`, `Metrics` (mae.dfy, metrics.dfy): the mean-absolute-error metric and the metric registry;
- `Util` (util.dfy): the profiler timers and `format_time`.

Floats are modelled as exact `real`. Some of the source's values cannot be
computed exactly or come from outside the program, so they are **inputs** of
the model:
- random draws (`random()`, `choice`, `sample`);
- elementary functions (`exp`, `log`, `sqrt`, the power in MET's mutation);
- the Beta-density areas that TRAVOS gets from `scipy.integrate.quad`;
- the clock readings from `time_ns()`.

A witness's answer inside a trust method is an input function of the
witness and the provider. An exception that the modelled code itself raises
is an `Err` (or `Fail`) of the matching `Errors.Error`. Examples are a missing
dict key, a zero division, an empty `max`, or an attribute that is never set.
An operation that raises part-way keeps the writes it made before the
exception. Where the simulation loop calls into an agent, whether that call
returns or raises is an input of the model. `Util.Profiler.Profile` passes on
whatever outcome the wrapped call has.

Objects whose fields the source updates in place are modelled as classes with
`modifies` frames. Loops are modelled as methods with loop invariants, proved
against specification functions. Pure formulas are modelled as functions, with
lemmas about them.

## Model

| member | source | states |
|---|---|---|
| Providers.OrSample | to_trust/agents/provider.py:26-28 | a truthy option is kept; a falsy one (None or 0) becomes `lo + (hi - lo) * r`, which lies in [lo, hi] for a draw in [0, 1) |
| Providers.NewProvider | to_trust/agents/provider.py:12-28 | each of chance, quality and cost is its option or a draw from its own range, one draw per parameter |
| Providers.ExplicitZeroCostIsResampled | to_trust/agents/provider.py:28 | an explicit `cost=0` is falsy and is replaced by the draw, so the provider's cost is not 0 |
| Providers.GetService | to_trust/agents/provider.py:31-34 | the service is `quality - cost` exactly when `chance > draw` and `-cost` otherwise; no other value is possible, and the provider, a value, is not changed |
| Providers.CertainAndImpossibleProviders | to_trust/agents/provider.py:32 | for every draw in [0, 1), chance 1 always succeeds and chance 0 always fails |
| Agents.FirstIndex | to_trust/agents/agent.py:12 | the position `list.remove` acts on: an index of x with no x before it |
| Agents.RemoveFirstAt | to_trust/agents/agent.py:12 | `list.remove(x)` cuts out exactly the element at the first occurrence of x |
| Agents.RemoveFirstSpec | to_trust/agents/agent.py:12 | the list is one shorter and holds one x fewer (as a multiset) |
| Agents.Agent.RemoveFromRing | to_trust/agents/agent.py:11-13 | a member's shared list loses its first occurrence of the agent and the agent gets a fresh empty list; an agent missing from its list raises ValueError and nothing changes |
| Agents.RemovalSeenByOtherMembers | to_trust/agents/agent.py:11-13 | another member of the same ring keeps its reference to the shared list, which is now one element shorter; the leaving agent's list is a new empty one |
| Agents.SecondRemovalFails | to_trust/agents/agent.py:12-13 | a second `remove_from_ring` after a successful one raises ValueError |
| Agents.BaseUpdate | to_trust/agents/agent.py:15-16 | the base `update` raises ToDoException |
| Agents.Agent.constructor | to_trust/agents/agent.py:8-9 | an agent of the given identity holding a fresh, empty ring list of its own |
| Consumers.Consumer.constructor | to_trust/agents/consumer.py:10-16 | no witnesses, no providers and an empty score cache |
| Consumers.Consumer.RegisterWitnesses | to_trust/agents/consumer.py:18-20 | every given witness becomes a key mapped to None, appended in order if new; earlier keys keep their place |
| Consumers.Consumer.RegisterProviders | to_trust/agents/consumer.py:22-24 | every given provider becomes a key mapped to None, appended in order if new; earlier keys keep their place |
| Consumers.Consumer.ScoreOf | to_trust/agents/consumer.py:26-29 | an unseen provider is cached at 0 and the cached value is returned; the cache changes in no other way |
| Consumers.ScoreOfIdempotent | to_trust/agents/consumer.py:26-29 | a second `score_of` of the same provider returns the same value and leaves the cache as the first call left it |
| Consumers.Consumer.ChooseProvider | to_trust/agents/consumer.py:34-44 | ToDoException exactly when no provider is registered; otherwise the first registered provider, whatever the testimonies |
| Consumers.Consumer.UpdateProvider | to_trust/agents/consumer.py:31-32 | the base `update_provider` raises ToDoException |
| Consumers.MaxScan | to_trust/methods/TRAVOS/Travos.py:89 | the left-to-right scan of `max(d, key=d.get)`: with every value present, the index of a largest value with every earlier value strictly smaller; a None raises TypeError |
| Consumers.MaxProvider | to_trust/methods/TRAVOS/Travos.py:89 | ValueError exactly for an empty dict; with every value present, a key whose value is at least every other and no earlier key has that value |
| Witnesses.Clamp01 | to_trust/agents/witness.py:66 | `min(1.0, max(0.0, x))` lies in [0, 1], is x on [0, 1], 0 below and 1 above |
| Witnesses.Opinion | to_trust/agents/witness.py:48-66 | the reported opinion always lies in [0, 1], and after an honest draw it is the clamped cached score whatever the ring and the mode |
| Witnesses.DishonestOpinions | to_trust/agents/witness.py:49-62 | the dishonest branches: Fixed gives clamp(bonus) in ring and clamp(1 - bonus) out of ring; Bonus adds the bonus in ring only when ballot stuffing, subtracts it out of ring when bad mouthing, and otherwise adds it out of ring only when ballot stuffing with an empty ring |
| Witnesses.ZeroHonestyHonestOnZeroDraw | to_trust/agents/witness.py:68-73 | honesty 0 still passes `honesty >= random()` on a draw of exactly 0.0, and the witness then reports its clamped cached score |
| Witnesses.Step | to_trust/agents/witness.py:76-79 | one `update` advances the epoch by exactly one |
| Witnesses.HonestyStepAppliedAtMostOnce | to_trust/agents/witness.py:76-79 | after n updates the epoch has advanced by n and the honesty step has been added once if the schedule is on and its epoch fell in the covered range, and otherwise not at all |
| Witnesses.Witness.constructor | to_trust/agents/witness.py:18-40 | the keywords are stored, the epoch starts at 0 with an empty cache, and the witness gets a fresh empty ring |
| Witnesses.Witness.ScoreOf | to_trust/agents/witness.py:42-66 | an unseen provider is cached at 0 first, and the result is the opinion of the cached score under the given honesty draw, ring membership and conduct |
| Witnesses.Witness.BecomesDishonest | to_trust/agents/witness.py:71-73 | the honesty becomes 0 and no other field changes |
| Witnesses.Witness.Update | to_trust/agents/witness.py:75-79 | the honesty and epoch after the call are one `Step` of those before it |
| Witnesses.Witness.RegisterProviders | to_trust/agents/witness.py:81-84 | the cache holds exactly the given providers, each at `chance * quality - cost` |
| Witnesses.Witness.ChooseProvider | to_trust/agents/witness.py:86-87 | `random.choice` of `dict_keys` always raises: IndexError for an empty cache, TypeError otherwise |
| RandomWitnesses.Brs | to_trust/agents/random_witness.py:28-29 | the beta reputation `(p + 1)/(p + n + 2)`: ZeroDivision exactly when the denominator is 0, and otherwise a value that times the denominator gives `p + 1` |
| RandomWitnesses.BrsInUnitInterval | to_trust/agents/random_witness.py:28-29 | for non-negative counts the reputation is defined and strictly between 0 and 1 |
| RandomWitnesses.BrsOneSided | to_trust/agents/random_witness.py:78-81 | all interactions counted positive give at least 1/2, all counted negative at most 1/2 |
| RandomWitnesses.SolvedPairRoundTrips | to_trust/agents/random_witness.py:9-19 | `n = (p + 1)/z - p - 2` solves `brs(p, n) = z` |
| RandomWitnesses.GetPnPairs | to_trust/agents/random_witness.py:9-20 | k pairs, the i-th with p = i, each solving `brs = z`; z = 0 with k > 0 raises ZeroDivision |
| RandomWitnesses.RandomWitness.constructor | to_trust/agents/random_witness.py:34-67 | the inherited witness fields from the keywords, the three mode flags, the threshold, and empty flag and count tables |
| RandomWitnesses.RandomWitness.ScoreOf | to_trust/agents/random_witness.py:69-81 | the inherited cache insert happens first; a partially random witness returns z (via a drawn pair) for flagged providers and the cached 0 for unflagged ones, KeyError for unregistered ones; all-positive and all-negative witnesses return the one-sided reputation of the interaction total; any other witness returns None |
| RandomWitnesses.RandomWitness.Update | to_trust/agents/random_witness.py:83-84 | the epoch advances by one and nothing else changes |
| RandomWitnesses.RandomWitness.RegisterProviders | to_trust/agents/random_witness.py:86-98 | every given provider gets zero counts and a flag (always set unless partially random, where the last draw for the provider decides by `> 0.5`); every other provider keeps its entries |
| RandomWitnesses.RandomWitness.UpdateProvider | to_trust/agents/random_witness.py:100-105 | one more negative interaction below the threshold, one more positive otherwise; an unregistered provider raises KeyError and changes nothing |
| Simulations.NewSimulation | to_trust/testbed/simulation.py:13-25 | a missing scenario or trust method raises the ToDo exception; otherwise the simulation holds the scenario's population, the method and the epoch count |
| Simulations.LoyalConsumerEarnsTrueValue | to_trust/testbed/simulation.py:38-50 | a consumer that picks provider j in every epoch ends with exactly j's true total |
| Simulations.EpochPhasesInOrder | to_trust/testbed/simulation.py:38-54 | within an epoch every sample precedes every feedback, which precedes every consumer update, which precedes every witness update; the epoch holds one sample per provider, one feedback and one update per consumer and one update per witness |
| Simulations.ChoicesGoodSplit | to_trust/testbed/simulation.py:38-50 | good choices for n + 1 epochs are exactly good choices for n epochs plus good choices in epoch n |
| Simulations.BadChoiceSpoils | to_trust/testbed/simulation.py:44-47 | one bad choice in the first n epochs means the first n epochs did not all choose well |
| Simulations.SampleProviders | to_trust/testbed/simulation.py:40-42 | every provider is sampled once in list order; the last values are the samples and each true total grows by its provider's sample |
| Simulations.CreditConsumers | to_trust/testbed/simulation.py:44-50 | fails exactly when some consumer's choice is bad or its `update_provider` raises, with the first such consumer's exception; otherwise each consumer's total grows by its chosen provider's sample of this epoch and the trace holds one feedback per consumer, in order |
| Simulations.UpdateAll | to_trust/testbed/simulation.py:51-54 | the consumers' `update` calls, in order, then the witnesses'; the result is the exception of the first call that raises, and it passes exactly when none raises |
| Simulations.RunEpoch | to_trust/testbed/simulation.py:38-54 | fails exactly when epoch e has a bad choice or a raising call, with the first one's exception; otherwise the totals go from those after e epochs to those after e + 1 and the trace is the epoch's calls |
| Simulations.RunEpochs | to_trust/testbed/simulation.py:38-54 | fails with the exception of the first failing epoch; succeeds exactly when every epoch gets through, and then every choice was good, the totals are the sums over all epochs and the trace is the epochs in order |
| Simulations.Register | to_trust/testbed/simulation.py:33-37 | every consumer registers the providers and then the witnesses, consumer by consumer, and then every witness registers the providers; the first raising call stops registration with its exception |
| Simulations.Run | to_trust/testbed/simulation.py:27-58 | `run` fails exactly when a registration call raises or some epoch has a bad choice or a raising call, with the first exception; otherwise the results are, per consumer, the sum of what it was credited and, per provider, the sum of its samples, the trace is the registration then the epochs, and zero epochs give all-zero totals |
| Simulations.ConsumersRegister | to_trust/testbed/simulation.py:33-35 | the exception of the first raising `register_providers` or `register_witnesses`, consumer by consumer, or none |
| Simulations.WitnessesRegister | to_trust/testbed/simulation.py:36-37 | the exception of the first raising `register_providers` of a witness, or none |
| Simulations.ConsumersUpdate | to_trust/testbed/simulation.py:51-52 | the exception of the first raising consumer `update`, or none |
| Simulations.WitnessesUpdate | to_trust/testbed/simulation.py:53-54 | the exception of the first raising witness `update`, or none |
| Simulations.ConsumerRegistrationFailureFirst | to_trust/testbed/simulation.py:33-35 | the consumers' registration exception is that of the first raising call of their registration trace |
| Simulations.WitnessRegistrationFailureFirst | to_trust/testbed/simulation.py:36-37 | the witnesses' registration exception is that of the first raising call of their registration trace |
| Simulations.ConsumerUpdateFailureFirst | to_trust/testbed/simulation.py:51-52 | the consumers' update exception is that of the first raising call of their update trace |
| Simulations.WitnessUpdateFailureFirst | to_trust/testbed/simulation.py:53-54 | the witnesses' update exception is that of the first raising call of their update trace |
| Simulations.RegistrationFailureFirst | to_trust/testbed/simulation.py:33-37 | the registration exception is that of the first raising call of the whole registration trace, and there is none exactly when no call raises |
| Simulations.UpdatesFailureFirst | to_trust/testbed/simulation.py:51-54 | the update exception is that of the first raising call among the consumer and then the witness updates, and there is none exactly when no update raises |
| Simulations.FeedbackFailureNone | to_trust/testbed/simulation.py:44-50 | the feedback loop of epoch e gets through exactly when every choice is good and no `update_provider` raises |
| Simulations.EpochFailureNone | to_trust/testbed/simulation.py:38-54 | an epoch gets through exactly when every choice in it is good and no call in it raises |
| Simulations.EpochsFailureNone | to_trust/testbed/simulation.py:38-54 | n epochs get through exactly when each of them does |
| Simulations.EpochsGood | to_trust/testbed/simulation.py:38-54 | n epochs get through exactly when every one of them has only good choices and no raising call |
| Simulations.RunFailureNone | to_trust/testbed/simulation.py:27-58 | `run` gets through exactly when no registration call raises and every epoch has only good choices and no raising call |
| Simulations.RaisingUpdateStopsRun | to_trust/testbed/simulation.py:51-52 | with a consumer and an epoch, a consumer `update` that always raises makes the first epoch, and so the run, fail |
| Simulations.RaisingFeedbackStopsRun | to_trust/testbed/simulation.py:50 | with a consumer and an epoch, an `update_provider` that always raises makes the first epoch, and so the run, fail |
| Simulations.AsWrittenWitnessUpdateRaises | to_trust/testbed/simulation.py:53-54 | as written, `witness.update(_step)` raises TypeError, so with a witness the first epoch and the run fail |
| Simulations.CorrectedWitnessUpdates | to_trust/testbed/simulation.py:51-54 | with `witness.update()` the witness updates never raise, and an epoch fails only through its feedback loop or a consumer update |
| Acts.DirectTrust | to_trust/methods/ACT.py:108-110 | the beta estimate `(alpha + 1)/(alpha + beta + 2)` is strictly between 0 and 1 |
| Acts.DirectTrustMonotone | to_trust/methods/ACT.py:108-110 | one more success strictly raises the direct trust, one more failure strictly lowers it |
| Acts.SpreadPositive | to_trust/methods/ACT.py:101 | `2 * epsilon**2` is positive for every non-zero epsilon |
| Acts.NMinAsWritten | to_trust/methods/ACT.py:98-101 | the bound as coded, without the formula's minus sign: ZeroDivision exactly for epsilon 0, ValueError exactly when the logarithm's argument is not positive |
| Acts.NMin | to_trust/methods/ACT.py:11 | the documented bound: the same error cases, and where defined exactly the negation of the bound as written |
| Acts.NMinSigns | to_trust/methods/ACT.py:98-101 | for a confidence level in (-1, 1) the bound as written is negative and the documented one positive |
| Acts.GammaIsOneForNonPositiveBound | to_trust/methods/ACT.py:84-88 | against a non-positive bound `_gamma` is always 1, so indirect trust never counts |
| Acts.GammaWeighsExperience | to_trust/methods/ACT.py:84-88 | against a positive bound `_gamma` is in [0, 1], is 1 exactly once the interaction count reaches the bound, and never falls with one more interaction |
| Acts.Utility | to_trust/methods/ACT.py:125-131 | `_u(p, t)` is 1 exactly when the consumer decided to interact at t and the outcome was good, and 0 otherwise; a step past the history raises IndexError |
| Acts.RewardOfRound | to_trust/methods/ACT.py:115-120 | the reward is `G - cost` after a chosen, successful interaction and `-cost` otherwise |
| Acts.Misleading | to_trust/methods/ACT.py:138-147 | the number of misleading recommendations among the first n steps is at most n |
| Acts.Theta | to_trust/methods/ACT.py:138-143 | no testimony raises ZeroDivision; a history shorter than the testimonies raises IndexError |
| Acts.ThetaIsProportion | to_trust/methods/ACT.py:138-147 | where defined the collusion penalty `_theta` is a proportion in [0, 1] |
| Acts.DecaysToFloor | to_trust/methods/ACT.py:79-82 | after n updates the exploration probability is `pr - 0.2 n`, floored at `pr_min` |
| Acts.UnknownProviders | to_trust/methods/ACT.py:322-323 | KeyError exactly when a registered provider has no counters |
| Acts.KnownProviders | to_trust/methods/ACT.py:325-327 | KeyError exactly when a registered provider has no counters |
| Acts.ProvidersPartition | to_trust/methods/ACT.py:322-327 | known and unknown providers together are a permutation of the registered ones; the known all have interactions and the unknown none |
| Acts.ByExperienceDistinct | to_trust/methods/ACT.py:322-327 | filtering distinct providers yields distinct providers, all registered |
| Acts.SliceLength | to_trust/methods/ACT.py:320 | the length of `xs[:M]` for every M, negative ones included |
| Acts.SelectTopSize | to_trust/methods/ACT.py:315-320 | the selection has M entries, capped by the number of witnesses |
| Acts.SelectTopDominates | to_trust/methods/ACT.py:315-320 | every selected witness is a given one and weighs at least as much as every witness left out |
| Acts.SelectTopDistinct | to_trust/methods/ACT.py:315-320 | no witness is selected twice |
| Acts.TopWitnesses | to_trust/methods/ACT.py:315-320 | sorting raises TypeError exactly when there are two or more witnesses and one of them still has the None weight of registration |
| Acts.TopWitnessesSpec | to_trust/methods/ACT.py:315-320 | the top witnesses are min(M, K) distinct registered witnesses, none weighing less than a registered witness left out |
| Acts.ReputationBetween | to_trust/methods/ACT.py:248-252 | for a gamma in [0, 1] `_rep` lies between direct and indirect trust |
| Acts.IndirectTrust | to_trust/methods/ACT.py:181-188 | with no witness the division 0/0 raises ZeroDivision |
| Acts.IndirectTrustIsMean | to_trust/methods/ACT.py:166-188 | with the softmax weights all equal, `_indirect_trust` is the plain mean of the witnesses' opinions |
| Acts.IndirectTrustInUnit | to_trust/methods/ACT.py:181-188 | opinions in [0, 1] give an indirect trust in [0, 1] |
| Acts.UniformWeightsSumToOne | to_trust/methods/ACT.py:166-168 | K equal softmax weights sum to 1 |
| Acts.FirstBest | to_trust/methods/ACT.py:291 | `sorted(scores, reverse=True)[0]`: a key whose score is at least every other, and the earliest such key, because the sort is stable |
| Acts.ReputationInUnitInterval | to_trust/methods/ACT.py:248-252 | with the documented positive bound and opinions in [0, 1], every reputation is in [0, 1] |
| Acts.RescoreSpec | to_trust/methods/ACT.py:288-289 | after visiting n providers, exactly those were added, each at its reputation, and the rest of the cache is kept |
| Acts.AppendedStep | to_trust/methods/ACT.py:284-286 | appending the testimonies for one more provider extends the set of providers testified about by that provider |
| Acts.Tally | to_trust/methods/ACT.py:303-306 | one outcome adds exactly one interaction and lowers neither counter |
| Acts.AfterInteractionSpec | to_trust/methods/ACT.py:295-300 | once the loop has passed the first s registered providers, p's history has grown by its outcome and True, that of every other passed provider by False and False, and every other history is unchanged |
| Acts.RecordRounds | to_trust/methods/ACT.py:295-300 | the history loop stops at the first registered provider other than p that has no histories (the KeyError) or at the end, with the histories as the loop leaves them there |
| Acts.CompleteInteraction | to_trust/methods/ACT.py:295-300 | a pass over every registered provider grows each history by exactly one round (p's outcome and True, False and False for the others), so histories of equal length stay of equal length |
| Acts.Interact | to_trust/methods/ACT.py:294-306 | the history loop, then the counter update only after a complete pass: an untracked p raises KeyError with nothing changed; a provider without histories raises KeyError part-way, leaving the rounds appended so far and the counters unchanged; a complete pass grows every history by one round and tallies p's outcome |
| Acts.RankByTrust | to_trust/methods/ACT.py:282-283 | the ranking is a permutation of the known providers |
| Acts.RankByTrustSorted | to_trust/methods/ACT.py:282-283 | the ranking is in non-increasing order of direct trust |
| Acts.RankByTrustDistinct | to_trust/methods/ACT.py:282-283 | ranking distinct providers gives distinct providers |
| Acts.AddTestimoniesSpec | to_trust/methods/ACT.py:285-286 | after the first j top witnesses, each of them has appended one testimony about q and no other list has changed |
| Acts.TestifyRow | to_trust/methods/ACT.py:285-286 | the inner loop stops at the first top witness without a list for q (the KeyError) or at the end, with the testimonies of the witnesses before it appended |
| Acts.AppendedPartlyStep | to_trust/methods/ACT.py:284-286 | complete rows followed by part of one more row give the lists the loop leaves when it raises inside that row |
| Acts.TestifyAll | to_trust/methods/ACT.py:284-286 | passes exactly when every row is complete, and then every top witness has appended one testimony per ranked provider; otherwise KeyError, with the complete rows before the first incomplete one appended and that row appended up to its first missing list |
| Acts.CoveredRanked | to_trust/methods/ACT.py:282-286 | a ranking of the known providers is testified to the end exactly when every top witness has a list for every known provider |
| Acts.Testify | to_trust/methods/ACT.py:282-286 | TypeError from the top-witness sort with the lists unchanged; KeyError exactly when some list is missing, with the appends made before it; otherwise every consulted witness has appended a testimony for every known provider, in the order of the trust ranking |
| Acts.ScoreAll | to_trust/methods/ACT.py:288-289 | the rescoring loop stops at the first provider for which some witness has no learned parameter (the KeyError) or at the end, with every provider before it at its reputation and the rest of the cache kept |
| Acts.Score | to_trust/methods/ACT.py:288-291 | IndexError without providers, the bound's error, or ZeroDivision without witnesses, each with the cache kept; KeyError part-way, with the providers before the first unlearned one at their reputations; otherwise every provider is at its reputation and the earliest best-scored one is returned |
| Acts.Act.constructor | to_trust/methods/ACT.py:38-77 | the parameters are stored; the counters, histories, learning parameters and testimonies are empty; `_pr` is 1 |
| Acts.Act.Update | to_trust/methods/ACT.py:79-82 | `_pr` becomes `max(pr_min, pr - 0.2)` and never falls below `pr_min` |
| Acts.Act.RegisterProviders | to_trust/methods/ACT.py:257-264 | after the base registration, exactly the given providers get zero counters, a zero smoothed reward and empty histories |
| Acts.Act.RegisterWitnesses | to_trust/methods/ACT.py:266-270 | after the base registration, exactly the given witnesses get a zero parameter and an empty testimony list for each registered provider |
| Acts.Act.UpdateProvider | to_trust/methods/ACT.py:294-313 | the history loop and counters as Acts.Interact states: an unregistered p, or a provider without histories part-way, raises KeyError, leaving the rounds appended so far and the counters and weights unchanged; after a complete pass and from the second interaction on, the top-witness sort raises TypeError or `_update_p` raises (AttributeError on the missing `epoch`, or KeyError), with the weights unchanged; otherwise every witness weight becomes the softmax 1/K, or KeyError for a missing parameter before any weight changes |
| Acts.Act.RecordInteraction | to_trust/methods/ACT.py:294-306 | the history and counter update of `update_provider`: passes exactly when p and every registered provider have histories, and then every history has grown by one round and p's counter by one; otherwise KeyError, with the rounds the loop appended and the counters unchanged |
| Acts.Act.Reinforce | to_trust/methods/ACT.py:308-313 | from the second interaction on, TypeError from the top-witness sort or the exception of `_update_p` for the first top witness (AttributeError, or KeyError), with the weights unchanged; otherwise every weight becomes 1/K, or KeyError before any weight changes |
| Acts.Act.Reweight | to_trust/methods/ACT.py:312-313 | every witness weight becomes 1/K; a witness without a parameter for p raises KeyError before any weight changes |
| Acts.Act.ChooseProviderAsWritten | to_trust/methods/ACT.py:272-291 | as written: an explored provider is always an unknown registered one; otherwise the missing `self.epoch` raises AttributeError when providers are registered and the empty list IndexError when none are |
| Acts.Act.Explored | to_trust/methods/ACT.py:280-281 | the provider `choice` draws while exploring has no interactions |
| Acts.Act.ChooseProvider | to_trust/methods/ACT.py:272-291 | KeyError when a registered provider has no counters; explores an unknown provider when the draw is within `_pr` and one exists, changing nothing; otherwise the testimony loop runs over the known providers in order of direct trust and stops at its first exception, leaving the testimonies appended so far; after a testimony exception the cache is kept; otherwise the rescoring loop stops at its first exception with the providers before it rescored, and a complete pass returns the earliest best-scored provider |
| Acts.Act.TestimonyPhase | to_trust/methods/ACT.py:282-286 | the exception is TypeError from the top-witness sort or KeyError from a missing list, each only when some provider is known; the lists are unchanged after TypeError, appended up to the first missing list after KeyError, and otherwise one testimony is appended per known provider and consulted witness |
| Acts.Act.ScoringPhase | to_trust/methods/ACT.py:288-291 | IndexError without providers, the bound's error, or ZeroDivision without witnesses, each with the cache kept; KeyError part-way, with the providers before the first unlearned one rescored; otherwise the cache holds exactly the registered providers, each at its reputation, and the earliest best one is returned |
| Iteas.Pairwise | to_trust/methods/ITEA/ITEA.py:15 | entry-wise products keep the length |
| Iteas.PairwiseAt | to_trust/methods/ITEA/ITEA.py:15 | the i-th entry-wise product is the product of the i-th entries |
| Iteas.Products | to_trust/methods/ITEA/ITEA.py:15 | NumPy broadcasting: equal lengths multiply pairwise, a length-one array broadcasts, any other pair of lengths raises ValueError |
| Iteas.CurrentPrediction | to_trust/methods/ITEA/ITEA.py:12-18 | ValueError exactly for lengths NumPy will not broadcast; for equal lengths ZeroDivision exactly when both are empty, and a non-finite float64 result exactly when the weights sum to 0 |
| Iteas.PredictionOfAgreement | to_trust/methods/ITEA/ITEA.py:12-18 | witnesses that all recommend c predict c, whatever the weights |
| Iteas.AgreeingProducts | to_trust/methods/ITEA/ITEA.py:15 | products of one recommendation c with the weights sum to c times the weight sum |
| Iteas.PredictionBetween | to_trust/methods/ITEA/ITEA.py:12-18 | with positive weights the prediction is defined and lies between the smallest and the largest recommendation |
| Iteas.WeightedMean | to_trust/methods/ITEA/ITEA.py:12-18 | for equal lengths and a non-zero weight sum the prediction is the weighted mean |
| Iteas.WeightedSumAbove | to_trust/methods/ITEA/ITEA.py:15-16 | recommendations of at least lo give a weighted sum of at least lo times the weight sum |
| Iteas.WeightedSumBelow | to_trust/methods/ITEA/ITEA.py:15-16 | recommendations of at most hi give a weighted sum of at most hi times the weight sum |
| Iteas.LossIsDistance | to_trust/methods/ITEA/ITEA.py:21-25 | the squared error is non-negative, symmetric, and 0 exactly on a perfect prediction |
| Iteas.RowValues | to_trust/methods/ITEA/ITEA.py:100 | `row.values()` lists the weights in the row's insertion order |
| Iteas.UniformRowSum | to_trust/methods/ITEA/ITEA.py:79-81 | a row of `1 / K` over distinct witnesses is a dict whose weights sum to (number of witnesses)/K, which is 1 when K counts exactly them |
| Iteas.DiscountInUnitInterval | to_trust/methods/ITEA/ITEA.py:155-158 | with a non-negative rate, `exp(-rate * loss)` lies in (0, 1] |
| Iteas.ZeroRateNoDiscount | to_trust/methods/ITEA/ITEA.py:155-158 | with rate 0 every discount is 1 |
| Iteas.ReweightedShrinks | to_trust/methods/ITEA/ITEA.py:149-158 | discounts in (0, 1] keep a row's keys and order, keep positive weights positive and never raise a weight |
| Iteas.ReweightedByOne | to_trust/methods/ITEA/ITEA.py:149-158 | unit discounts leave a row as it was |
| Iteas.Prediction | to_trust/methods/ITEA/ITEA.py:97-101 | indexing the constructor's empty list raises TypeError, a provider without a row raises KeyError, otherwise it is `current_prediction` of the witnesses' opinions and the row's weights |
| Iteas.Predictions | to_trust/methods/ITEA/ITEA.py:95-103 | one prediction per registered provider, in order, each that provider's own prediction |
| Iteas.PredictionsKeepError | to_trust/methods/ITEA/ITEA.py:95-103 | the first provider without a prediction decides the loop's error |
| Iteas.MaxPrediction | to_trust/methods/ITEA/ITEA.py:106 | `max` is at least every prediction and is one of them |
| Iteas.Maximal | to_trust/methods/ITEA/ITEA.py:109-111 | the candidates are exactly the providers whose prediction equals the maximum |
| Iteas.Choose | to_trust/methods/ITEA/ITEA.py:106-114 | no providers make `max` raise ValueError; otherwise the pick has a maximal prediction |
| Iteas.EveryMaximalCanBeChosen | to_trust/methods/ITEA/ITEA.py:109-112 | every provider of maximal prediction is the pick of some draw |
| Iteas.Tally | to_trust/methods/ITEA/ITEA.py:44-54 | drawing from an empty list raises IndexError exactly when an iteration runs; otherwise every witness has a tally for exactly the given providers |
| Iteas.Bumped | to_trust/methods/ITEA/ITEA.py:51-54 | a good interaction adds one to the good count and a bad one to the bad count |
| Iteas.Laplace | to_trust/methods/ITEA/ITEA.py:58-60 | the witness score is the beta reputation of its tally and lies strictly between 0 and 1 |
| Iteas.TallyCountsEveryIteration | to_trust/methods/ITEA/ITEA.py:48-54 | over distinct witnesses and providers the tallies add up to the number of iterations |
| Iteas.TallyStep | to_trust/methods/ITEA/ITEA.py:48-54 | one more iteration bumps exactly the drawn witness's tally for the drawn provider |
| Iteas.LearningRate | to_trust/methods/ITEA/ITEA.py:77-78 | ValueError for no witnesses or a negative square-root argument, ZeroDivision for T = 0, otherwise `sqrt(8 log K / T)` |
| Iteas.SingleWitnessRate | to_trust/methods/ITEA/ITEA.py:77-78 | one witness gives learning rate 0 for every T |
| Iteas.FirstMissing | to_trust/methods/ITEA/ITEA.py:149-158 | every witness before the index has a weight in the row, and the one at it (if any) does not |
| Iteas.ReweightedStep | to_trust/methods/ITEA/ITEA.py:156-158 | reweighting one more witness is one dict assignment |
| Iteas.ReweightRow | to_trust/methods/ITEA/ITEA.py:149-158 | the witness loop multiplies each weight by its factor, in order, up to the first witness the row lacks, and the row stays a dict |
| Iteas.Chosen | to_trust/methods/ITEA/ITEA.py:91-114 | the prediction loop's error, or the pick among the maximal predictions; a pick is a provider with a row |
| Iteas.KeepsPositive | to_trust/methods/ITEA/ITEA.py:149-158 | reweighting one row with factors in (0, 1] keeps every row positive |
| Iteas.Itea.constructor | to_trust/methods/ITEA/ITEA.py:62-72 | rate, interactions and K unset, no weights and an empty loss log |
| Iteas.Itea.RegisterWitnesses | to_trust/methods/ITEA/ITEA.py:74-81 | K is the number of witnesses; a rate error keeps the old rate and weights; otherwise every registered provider has a uniform row over the registered witnesses, summing to 1 |
| Iteas.Itea.RegisterProviders | to_trust/methods/ITEA/ITEA.py:86-88 | after the base registration the interaction dict holds exactly the given providers at 0 |
| Iteas.Itea.UpdateProvider | to_trust/methods/ITEA/ITEA.py:83-84 | records the score for any provider; before provider registration the None raises TypeError |
| Iteas.Itea.Recommend | to_trust/methods/ITEA/ITEA.py:96-98 | the opinions of the registered witnesses about p, in witness order |
| Iteas.Itea.PredictAll | to_trust/methods/ITEA/ITEA.py:95-103 | the loop computes the predictions of every registered provider, or the first error |
| Iteas.Itea.ChooseProvider | to_trust/methods/ITEA/ITEA.py:90-114 | the choice is a provider of maximal prediction, or the error of the prediction loop or of an empty registration |
| Iteas.Itea.Update | to_trust/methods/ITEA/ITEA.py:116-158 | after the same choice as `choose_provider`, the squared error of the maximal prediction against the observed score is logged and only the chosen row is reweighted by `exp(-rate * error)` witness by witness, keeping the updates before a missing witness's KeyError; errors before the loop change nothing; positive rows stay positive and a zero rate changes no weight |
| Iteas.Itea.Observe | to_trust/methods/ITEA/ITEA.py:145-158 | h's observed score is looked up (TypeError before registration, KeyError if missing, with nothing changed), the loss is logged and the row of h learns from it |
| Iteas.Itea.Learn | to_trust/methods/ITEA/ITEA.py:149-158 | only the row of h changes, each witness's weight discounted by its own squared error up to the first missing witness; positive rows stay positive and a zero rate changes nothing |
| Iteas.Itea.Reweight | to_trust/methods/ITEA/ITEA.py:149-158 | only the row of h changes, each weight multiplied by its factor up to the first missing witness, which raises KeyError |
| Iteas.CountInteractions | to_trust/methods/ITEA/ITEA.py:48-54 | the tallying loop computes the tallies `Tally` describes |
| Iteas.WriteScores | to_trust/methods/ITEA/ITEA.py:56-60 | one witness's scores for the given providers become the beta reputations of its tallies; other scores are kept |
| Iteas.Preprocess | to_trust/methods/ITEA/ITEA.py:42-60 | drawing from an empty list raises IndexError before any score is written; otherwise every witness's score for every given provider is the beta reputation of its tally, and other scores are kept |
| Iteas.WriteAllScores | to_trust/methods/ITEA/ITEA.py:55-60 | every witness's scores for the given providers become the beta reputations of its tallies |
| TravosMethod.MeanInUnitInterval | to_trust/methods/TRAVOS/Travos.py:94 | a Beta distribution whose parameters are at least 1 has its mean strictly between 0 and 1 |
| TravosMethod.Intervals | to_trust/methods/TRAVOS/Travos.py:31 | `linspace(0, 1, n + 1)`: n + 1 strictly increasing bounds from 0 to 1 |
| TravosMethod.BelowIsPrefix | to_trust/methods/TRAVOS/Travos.py:141 | over increasing bounds, the indices `argwhere(intervals < v)` returns are 0 to k-1: every bound before k is below v and none after |
| TravosMethod.BinIndex | to_trust/methods/TRAVOS/Travos.py:141-147 | the only failure is the IndexError of `bin_index[-2]` on a one-element list |
| TravosMethod.BinIndexSpec | to_trust/methods/TRAVOS/Travos.py:141-147 | the bin of an opinion exists unless there are no intervals and the opinion is positive; a non-positive opinion is in bin 0, one above 1 in the last bin, and one in (0, 1] in the interval (lo, hi] containing it |
| TravosMethod.BinInRange | to_trust/methods/TRAVOS/Travos.py:172-174 | with at least one interval, `intervals[bin + 1]` always exists |
| TravosMethod.BinTally | to_trust/methods/TRAVOS/Travos.py:153-155 | the agreements and disagreements counted in one bin are at most the entries of the history |
| TravosMethod.BinTallyOfOtherBins | to_trust/methods/TRAVOS/Travos.py:153-155 | entries of other bins do not count |
| TravosMethod.PrependedEntry | to_trust/methods/TRAVOS/Travos.py:63-69 | a recorded entry adds one to its own bin's count of its kind and changes no other bin |
| TravosMethod.Appraise | to_trust/methods/TRAVOS/Travos.py:139-183 | an accuracy is only ever returned after the opinion was stored, and only for a witness and provider that have a history |
| TravosMethod.AppraiseSpec | to_trust/methods/TRAVOS/Travos.py:139-183 | what is stored is the opinion with its bin; a failed bin lookup stores nothing and raises IndexError, a missing history KeyError; with intervals and a history the opinion is stored, and only a zero full area fails, with ZeroDivision |
| TravosMethod.AlphaBeta | to_trust/methods/TRAVOS/Travos.py:185-195 | moment matching: ZeroDivision exactly for deviation 0; otherwise alpha + beta is `mu(1 - mu)/sd^2 - 1` and alpha is mu times it, so the mean is mu |
| TravosMethod.MomentMatch | to_trust/methods/TRAVOS/Travos.py:185-195 | the parameters returned have mean mu |
| TravosMethod.AdjustedBetween | to_trust/methods/TRAVOS/Travos.py:115-122 | for an accuracy in [0, 1] the adjusted mean lies between 1/2 and the opinion, and the adjusted deviation between 0.1 and the uniform one, so it is never 0 |
| TravosMethod.AtLeastOne | to_trust/methods/TRAVOS/Travos.py:131-132 | `max(x, 1.0)` is at least 1 and x, and is x once x reaches 1 |
| TravosMethod.Contribution | to_trust/methods/TRAVOS/Travos.py:115-135 | a witness adds non-negative amounts to alpha and beta, and fails only for a zero adjusted deviation |
| TravosMethod.Look | to_trust/methods/TRAVOS/Travos.py:111-135 | one witness's step adds non-negative amounts and stores an opinion only where a history exists |
| TravosMethod.GainsStep | to_trust/methods/TRAVOS/Travos.py:134-135 | one more successful witness adds its gain |
| TravosMethod.GainsGrow | to_trust/methods/TRAVOS/Travos.py:109-135 | the witness loop never lowers alpha or beta |
| TravosMethod.GainsKeepError | to_trust/methods/TRAVOS/Travos.py:111-135 | the loop's error is that of the first failing witness |
| TravosMethod.StoresKeepStop | to_trust/methods/TRAVOS/Travos.py:111-112 | once a witness fails, later witnesses store nothing |
| TravosMethod.StoresTouchOnlyP | to_trust/methods/TRAVOS/Travos.py:178-181 | estimating p stores opinions about p only; the other providers' stored opinions and the table's witnesses are kept |
| TravosMethod.StoresKeepFootprint | to_trust/methods/TRAVOS/Travos.py:178-181 | only opinions whose history exists are stored |
| TravosMethod.Estimate | to_trust/methods/TRAVOS/Travos.py:108-137 | the estimate is the mean of the final Beta, whose parameters are at least the provider's own counts plus one; it is strictly between 0 and 1, and it fails exactly when the witness loop fails |
| TravosMethod.Confidence | to_trust/methods/TRAVOS/Travos.py:93-105 | KeyError exactly for a provider without counters; otherwise the prior is Beta(positive + 1, negative + 1) |
| TravosMethod.Confidences | to_trust/methods/TRAVOS/Travos.py:91-106 | one confidence per registered provider, in order, or the error of one of them |
| TravosMethod.ProviderValue | to_trust/methods/TRAVOS/Travos.py:84-88 | a confident provider keeps the mean of its own counts, any other gets the witness-based estimate; every value is strictly between 0 and 1 |
| TravosMethod.Valuate | to_trust/methods/TRAVOS/Travos.py:84-88 | the valuation loop has an error exactly when it stopped short of the end |
| TravosMethod.ValuateSpec | to_trust/methods/TRAVOS/Travos.py:84-88 | the loop's values are the providers' values in order, and its error is that of the next provider |
| TravosMethod.ValuateKeepsStop | to_trust/methods/TRAVOS/Travos.py:84-88 | once a provider's valuation fails, the loop ends there |
| TravosMethod.ValuateKeepsWitnesses | to_trust/methods/TRAVOS/Travos.py:84-88 | valuation keeps the witnesses of the stored-opinion table |
| TravosMethod.ValuateKeepsFootprint | to_trust/methods/TRAVOS/Travos.py:84-88 | after valuation every stored opinion still has a history to extend |
| TravosMethod.Cleared | to_trust/methods/TRAVOS/Travos.py:77-79 | the stored-opinion table keeps its witnesses and holds no opinions |
| TravosMethod.ConfidentProviderIgnoresWitnesses | to_trust/methods/TRAVOS/Travos.py:86-88 | a confident provider's value does not depend on what the witnesses say |
| TravosMethod.Reset | to_trust/methods/TRAVOS/Travos.py:39-41 | the given providers start an empty history and the others keep theirs |
| TravosMethod.ResetIdempotent | to_trust/methods/TRAVOS/Travos.py:39-41 | registering a witness twice is the same as once |
| TravosMethod.ResetCountsNothing | to_trust/methods/TRAVOS/Travos.py:39-41 | after registration a provider's history counts nothing in any bin |
| TravosMethod.Initial | to_trust/methods/TRAVOS/Travos.py:36-38 | an unseen witness starts with an empty row, a known one keeps its row |
| TravosMethod.Agreement | to_trust/methods/TRAVOS/Travos.py:56-69 | an entry keeps the opinion's bin and records agreement exactly when opinion and outcome lie on the same side of the threshold |
| TravosMethod.RegisteredSpec | to_trust/methods/TRAVOS/Travos.py:33-41 | the registered witnesses get their row reset for the current providers; the others keep theirs |
| TravosMethod.RegisteredLastSpec | to_trust/methods/TRAVOS/Travos.py:35-38 | registration only adds empty stored-opinion rows, for new witnesses |
| TravosMethod.EveryKeyValued | to_trust/methods/TRAVOS/Travos.py:88 | a registration dict whose every key was assigned a value is fully valued |
| TravosMethod.AssignedSpec | to_trust/methods/TRAVOS/Travos.py:88 | assigning values keeps the keys and their order, gives each of the first providers its value and leaves the rest |
| TravosMethod.RegisteredKeepsFootprint | to_trust/methods/TRAVOS/Travos.py:33-41 | registration keeps the two tables' witnesses equal and every stored opinion backed by a history |
| TravosMethod.Travos.constructor | to_trust/methods/TRAVOS/Travos.py:11-31 | the thresholds, epsilon and the interval bounds; empty counters and tables |
| TravosMethod.Travos.RegisterWitnesses | to_trust/methods/TRAVOS/Travos.py:33-41 | after the base registration each given witness has its history reset for every current provider, other witnesses keep theirs, and new witnesses get an empty stored-opinion row |
| TravosMethod.Travos.RegisterRows | to_trust/methods/TRAVOS/Travos.py:35-41 | the registration loop over the given witnesses, keeping both tables' witnesses equal |
| TravosMethod.Travos.RegisterOne | to_trust/methods/TRAVOS/Travos.py:36-41 | one witness's rows: a new stored-opinion row only if the witness is new, and its history reset |
| TravosMethod.Travos.ResetHistory | to_trust/methods/TRAVOS/Travos.py:39-41 | the inner loop resets the witness's history for the given providers |
| TravosMethod.Travos.RegisterProviders | to_trust/methods/TRAVOS/Travos.py:43-46 | after the base registration exactly the given providers have zero counters |
| TravosMethod.Travos.RecordAgreements | to_trust/methods/TRAVOS/Travos.py:56-69 | every witness with a stored opinion about p has an agreement entry prepended to its history for p; no other history changes |
| TravosMethod.Travos.UpdateProvider | to_trust/methods/TRAVOS/Travos.py:55-74 | the agreements are recorded, and the counter of the outcome (`score >` threshold) grows by one; a provider without a counter raises KeyError after the entries were recorded |
| TravosMethod.Travos.Update | to_trust/methods/TRAVOS/Travos.py:48-53 | `update` always raises AttributeError |
| TravosMethod.Travos.ConfidenceValues | to_trust/methods/TRAVOS/Travos.py:91-106 | the loop computes the confidences `Confidences` describes |
| TravosMethod.Travos.Scan | to_trust/methods/TRAVOS/Travos.py:111-135 | each witness in turn stores its opinion and adds its gain, and the loop stops at the first error |
| TravosMethod.Travos.EstimateWithWitnesses | to_trust/methods/TRAVOS/Travos.py:108-137 | the estimate `Estimate` describes, with the witnesses' opinions stored |
| TravosMethod.Travos.ValueOf | to_trust/methods/TRAVOS/Travos.py:84-88 | one provider's value, storing the opinions only when the witnesses are asked |
| TravosMethod.Travos.AssignNext | to_trust/methods/TRAVOS/Travos.py:84-88 | one more provider's value extends the run, or its error ends the loop |
| TravosMethod.Travos.AssignValues | to_trust/methods/TRAVOS/Travos.py:84-88 | each provider's value is written as soon as it is known, in order, up to the first error |
| TravosMethod.Travos.ChooseProvider | to_trust/methods/TRAVOS/Travos.py:76-89 | the stored opinions are cleared, every provider gets its value (own mean when confident, witness estimate otherwise) up to the first error, and the chosen provider has the first largest value; keys never change |
| Mets.AverageStep | to_trust/methods/MET/MET.py:108-113 | one more rating x moves the mean so that `(n + 1) mean' = n mean + x` |
| Mets.Picked | to_trust/methods/MET/MET.py:73-80 | the witnesses `rand.sample` returns are the population's entries at the sampled positions |
| Mets.OthersSpec | to_trust/methods/MET/MET.py:80 | `[w for w in witnesses if w != witness]` keeps exactly the other witnesses |
| Mets.TrustMap | to_trust/methods/MET/MET.py:72 | the drawn trust map has an entry for exactly the registered witnesses |
| Mets.NetworkRow | to_trust/methods/MET/MET.py:73-86 | a network row covers every witness; sampled witnesses hold their trust value and every other witness 1/2 |
| Mets.OwnEntryIsHalf | to_trust/methods/MET/MET.py:80-86 | every witness appears in its own peer network, always at 1/2, because it is never sampled from the others |
| Mets.PeerRowsKeys | to_trust/methods/MET/MET.py:79-86 | after n witnesses exactly the processed and the earlier witnesses have peer networks, and the others keep theirs |
| Mets.RowAddedStep | to_trust/methods/MET/MET.py:81 | one more peer network keeps those facts |
| Mets.PeerRowsOwn | to_trust/methods/MET/MET.py:79-86 | each processed witness has a peer network over every witness in which it holds 1/2 |
| Mets.FirstShort | to_trust/methods/MET/MET.py:80 | the first witness with fewer others than the sample size, whose `rand.sample` raises ValueError |
| Mets.FirstShortAt | to_trust/methods/MET/MET.py:80 | the first short witness follows a run of witnesses that are not short |
| Mets.BuildPeers | to_trust/methods/MET/MET.py:79-86 | the peer loop builds the rows of every witness before the first short one, and raises ValueError exactly when there is one |
| Mets.BlendIsHalfway | to_trust/methods/MET/MET.py:104-107 | both branches of the trust update compute the same `(trust + deviation)/2` |
| Mets.PeerEntry | to_trust/methods/MET/MET.py:170 | the read of a selected peer network: IndexError past the selection, KeyError for a missing network or entry |
| Mets.Mix | to_trust/methods/MET/MET.py:170 | the crossover value `n0[w] + F n1[w] - F n2[w]`, defined exactly when all three lookups succeed |
| Mets.MixDefined | to_trust/methods/MET/MET.py:170 | three selected peers that all rate the witness never fail the crossover |
| Mets.OpinionsAgree | to_trust/methods/MET/MET.py:146-151 | when every counted opinion is t, the sum is t per counted witness |
| Mets.RatingDiffs | to_trust/methods/MET/MET.py:140-155 | a rated provider with no counted witness raises ZeroDivision; `num_w` is unbound exactly while every provider seen is rated 1/2 |
| Mets.RatingDiffsKeepError | to_trust/methods/MET/MET.py:140-155 | the first failing division ends the loop |
| Mets.RatingDiff | to_trust/methods/MET/MET.py:138-156 | the result pairs a positive `num_w`, that of the last provider rated other than 1/2, with a non-negative absolute difference |
| Mets.UnboundWhenUnrated | to_trust/methods/MET/MET.py:138-156 | UnboundLocalError exactly when every provider is rated 1/2 |
| Mets.UnratedNeverFails | to_trust/methods/MET/MET.py:138-156 | with every provider rated 1/2 no division is attempted |
| Mets.AgreementCancels | to_trust/methods/MET/MET.py:140-155 | witnesses that agree with every rated provider accumulate a difference of 0 |
| Mets.Fitness | to_trust/methods/MET/MET.py:158-160 | the fitness `(1/m) diff` is non-negative and fails exactly when the rating difference does |
| Mets.PerfectAgreement | to_trust/methods/MET/MET.py:138-160 | witnesses that agree with every rated provider give fitness 0, the best possible |
| Mets.Mutate | to_trust/methods/MET/MET.py:175-193 | the mutated network has the same witnesses in the same order, and is either all shifted by delta or an unchanged copy |
| Mets.MutateAll | to_trust/methods/MET/MET.py:187-191 | the loop builds the mutated network |
| Mets.SampleDistinct | to_trust/methods/MET/MET.py:73 | the sampled witnesses are distinct, exactly k of them |
| Mets.PutEachSpec | to_trust/methods/MET/MET.py:74-78 | the assignment loops keep the earlier keys in place, give every assigned witness its value and leave every other entry |
| Mets.PutEachStep | to_trust/methods/MET/MET.py:75-78 | one more assignment keeps those facts |
| Mets.NetworkAssembled | to_trust/methods/MET/MET.py:73-78 | the sampled witnesses at their trust values followed by the leftover at 1/2 is the network row over all witnesses |
| Mets.MaeTail | to_trust/methods/MET/MET.py:58-66 | the error-tracking tail always raises: ZeroDivision for an empty network or zero witnesses times days, AttributeError for the missing `MAE` list otherwise |
| Mets.Met.constructor | to_trust/methods/MET/MET.py:13-36 | the parameters are stored; days 0, empty tables and no fitness |
| Mets.Met.ChooseProvider | to_trust/methods/MET/MET.py:116-118 | one more day; the drawn registered provider, or IndexError when none is registered |
| Mets.Met.UpdateProvider | to_trust/methods/MET/MET.py:98-113 | every network witness's trust moves halfway towards the deviation of its opinion from the implied rating; p's history grows by one rating and its mean is the average of the history |
| Mets.Met.Mutation | to_trust/methods/MET/MET.py:175-193 | the mutated copy of the network, shifted exactly when the draw is at most `pm` |
| Mets.Met.Crossover | to_trust/methods/MET/MET.py:162-173 | the copy keeps the witnesses and order; each witness is kept, or mixed from the three selected peers when its draw is at most `cr`; a failing lookup raises its error |
| Mets.Met.CalculateRatingDiff | to_trust/methods/MET/MET.py:138-156 | the loops compute the rating difference `RatingDiff` describes |
| Mets.Met.CalculateFitness | to_trust/methods/MET/MET.py:158-160 | the fitness of the network's witnesses |
| Mets.Met.RegisterWitnesses | to_trust/methods/MET/MET.py:70-86 | the drawn trust map; a sample larger than the witnesses raises ValueError before the network changes; otherwise the network gains a row over all witnesses (sampled at their trust, the rest at 1/2) and the peer networks are built up to the first short witness |
| Mets.Met.AddToNetwork | to_trust/methods/MET/MET.py:74-78 | the sampled witnesses get their trust value, then every leftover witness 1/2 |
| Mets.Met.RegisterProviders | to_trust/methods/MET/MET.py:89-90 | the inherited registration |
| Mets.Met.Candidates | to_trust/methods/MET/MET.py:47-50 | the advisors under `p_local`; otherwise three distinct registered witnesses, or ValueError with fewer than three |
| Mets.Met.Update | to_trust/methods/MET/MET.py:39-66 | the current fitness is recorded; the crossover is discarded; the mutated network replaces the current one only when its fitness is strictly lower; the keys never change; the call always ends in an error, the MAE tail's when everything before it succeeds; with the same opinions nothing is replaced |
| TestbedAgents.GetService | to_trust/testbed/agents.py:31-36 | the service is the quality when the chance beats the draw and 0 otherwise |
| TestbedAgents.ServiceExtremes | to_trust/testbed/agents.py:31-36 | a chance of at least 1 always delivers the quality and a chance of at most 0 never does |
| TestbedAgents.Opinion | to_trust/testbed/agents.py:74-95 | Fixed mode answers the bonus inside the ring and `1 - bonus` outside; in Bonus mode, because of `max(1, ·)`, an honest answer is at least 1 and a dishonest one at most 0 |
| TestbedAgents.Max1 | to_trust/testbed/agents.py:91 | `max(1, x)` is 1 or x, whichever is larger |
| TestbedAgents.BonusNeverInside | to_trust/testbed/agents.py:84-95 | in Bonus mode no opinion lies strictly between 0 and 1 |
| TestbedAgents.CalcDelta | to_trust/testbed/agents.py:122-125 | the squared change is 0 exactly when the score is unchanged, and positive otherwise |
| TestbedAgents.Cache | to_trust/testbed/agents.py:134-137 | looking p up inserts 0 for an unseen p and keeps every other entry |
| TestbedAgents.CacheIdempotent | to_trust/testbed/agents.py:134-137 | a second lookup changes nothing and reads the same values |
| TestbedAgents.CacheAllSpec | to_trust/testbed/agents.py:147-148 | looking providers up never changes what is read for any provider and only adds the providers looked up |
| TestbedAgents.Agent.constructor | to_trust/testbed/agents.py:12-13 | the agent's identity and its (possibly missing) ring |
| TestbedAgents.Agent.RemoveFromRing | to_trust/testbed/agents.py:15-17 | AttributeError without a ring, ValueError when the agent is not in it; otherwise the shared list loses the agent's first occurrence and the agent gets a fresh empty list |
| TestbedAgents.Witness.constructor | to_trust/testbed/agents.py:52-72 | the keywords are stored, with an empty cache and a fresh empty ring |
| TestbedAgents.Witness.ScoreOf | to_trust/testbed/agents.py:74-95 | the cache insert, then the opinion of the cached value for the provider's ring membership |
| TestbedAgents.Witness.BecomesDishonest | to_trust/testbed/agents.py:97-98 | the honesty becomes 0 |
| TestbedAgents.Witness.Update | to_trust/testbed/agents.py:100-102 | the honesty becomes 0 exactly at the scheduled epoch of a witness that starts lying, and is kept otherwise |
| TestbedAgents.LiesAfterSwitch | to_trust/testbed/agents.py:92-102 | after the switch a Bonus-mode witness's opinion is at most 0 for every draw in [0, 1) |
| TestbedAgents.BaseCalc | to_trust/testbed/agents.py:105-107 | the abstract `calc` raises ToDoException |
| TestbedAgents.TestimoniesSpec | to_trust/testbed/agents.py:149-151 | the testimony dict has one entry per distinct witness, holding that witness's opinion |
| TestbedAgents.NtcmScores | to_trust/testbed/agents.py:147-153 | each provider's score is the trust method applied to its cached value and its testimonies |
| TestbedAgents.ArgMax | to_trust/testbed/agents.py:145-157 | a scan result is a scored position before n |
| TestbedAgents.ArgMaxSpec | to_trust/testbed/agents.py:145-157 | the scan succeeds exactly when every score is defined, then finding the earliest maximal score; otherwise it fails with the first failing score's error |
| TestbedAgents.ArgMaxKeepError | to_trust/testbed/agents.py:147-157 | a failed scan stays failed with the same error |
| TestbedAgents.Consumer.constructor | to_trust/testbed/agents.py:114-120 | an empty cache |
| TestbedAgents.Consumer.ScoreOf | to_trust/testbed/agents.py:134-137 | an unseen provider is cached at 0, and the cached value is returned |
| TestbedAgents.Consumer.UpdateProvider | to_trust/testbed/agents.py:127-132 | an unseen provider raises KeyError and changes nothing; otherwise the score grows by the squared change and then by `exp(-x)`, so a positive exp strictly raises it |
| TestbedAgents.Consumer.ChooseProvider | to_trust/testbed/agents.py:139-159 | no providers raise ToDoException; otherwise the earliest provider of greatest score, or the first error of the trust method; lookups change no value read |
| Mae.Choose | to_trust/metrics/MAE.py:26 | `min(x, val)` is at most both arguments and `max(x, val)` at least both, and either is one of them |
| Mae.ExtremeSpec | to_trust/metrics/MAE.py:21-28 | `g(min)` of an epoch is at most 1 and at most each provider's entry, and equals one of them or 1; `g(max)` likewise from -1 |
| Mae.Between | to_trust/metrics/MAE.py:21-28 | each provider's entry of an epoch lies between that epoch's `g(min)` and `g(max)` |
| Mae.G | to_trust/metrics/MAE.py:21-28 | IndexError exactly when some provider row is shorter than the epoch count; otherwise one extreme per epoch |
| Mae.EpochKeepError | to_trust/metrics/MAE.py:13-16 | once a term of an epoch raises, the remaining consumers keep that error |
| Mae.TotalKeepError | to_trust/metrics/MAE.py:12-16 | once an epoch raises, later epochs keep that error |
| Mae.FailAt | to_trust/metrics/MAE.py:12-18 | the first term that raises decides the metric's error |
| Mae.ComputeMae | to_trust/metrics/MAE.py:7-18 | the nested loops return or raise exactly what the metric's definition does |
| Mae.EpochOkIff | to_trust/metrics/MAE.py:13-16 | an epoch adds up exactly when every consumer row has the entry and, with consumers present, `g(max)` differs from `g(min)`; otherwise IndexError or ZeroDivision |
| Mae.TotalOkIff | to_trust/metrics/MAE.py:12-16 | the accumulation succeeds exactly when every epoch does, and raises only IndexError or ZeroDivision |
| Mae.MaeOkIff | to_trust/metrics/MAE.py:7-18 | the metric is defined exactly when there is an epoch and a consumer, every row is long enough and no epoch is flat; otherwise IndexError or ZeroDivision |
| Mae.MaeZeroDivision | to_trust/metrics/MAE.py:14-17 | no epochs, no consumers, or a flat epoch with full rows raise ZeroDivision |
| Mae.FirstFlat | to_trust/metrics/MAE.py:14-16 | with full rows the first flat epoch raises ZeroDivision |
| Mae.EpochBounds | to_trust/metrics/MAE.py:14-16 | consumer values inside their epoch's bounds add between 0 and 1 each |
| Mae.TotalBounds | to_trust/metrics/MAE.py:12-16 | with every value in bounds the total lies between 0 and the number of terms |
| Mae.MaeInUnit | to_trust/metrics/MAE.py:7-18 | with every consumer value between its epoch's `g(min)` and `g(max)`, the metric lies in [0, 1] |
| Mae.EpochExtremes | to_trust/metrics/MAE.py:14-16 | consumers at the epoch minimum add 0 and those at the maximum add 1 each |
| Mae.TotalExtremes | to_trust/metrics/MAE.py:12-16 | all at the minimum give total 0; all at the maximum give the number of terms |
| Mae.MaeExtremes | to_trust/metrics/MAE.py:7-18 | the metric is 1 when every consumer sits at the epoch minimum and 0 when every one sits at the maximum |
| Metrics.MetricSystem.constructor | to_trust/metrics/metrics.py:14 | the registry starts empty |
| Metrics.MetricSystem.Register | to_trust/metrics/metrics.py:16-26 | the name maps to a wrapper that computes what the function does; other names are untouched |
| Metrics.MetricSystem.RegisterMae | to_trust/metrics/MAE.py:6-7 | after decoration, "MAE" computes the metric and every other entry is kept |
| Metrics.RowSums | to_trust/metrics/metrics.py:34 | one sum per agent, in agent order |
| Metrics.Average | to_trust/metrics/metrics.py:32-34 | ZeroDivision exactly when there are no agents |
| Metrics.AverageBounds | to_trust/metrics/metrics.py:32-34 | when each agent's sum lies in [lo, hi], so does the average |
| Metrics.MeanBounds | to_trust/metrics/metrics.py:34 | a mean of values in [lo, hi] lies in [lo, hi] |
| Metrics.AverageOrderIndependent | to_trust/metrics/metrics.py:32-34 | the average does not depend on the order of the agents |
| ExampleNtcm.Calc | to_trust/methods/Example/example_ntcm.py:5-6 | ZeroDivision exactly when there are no testimonies |
| ExampleNtcm.ConstantTestimonies | to_trust/methods/Example/example_ntcm.py:5-6 | when every testimony is c, the result is the score plus c |
| ExampleNtcm.OrderIndependent | to_trust/methods/Example/example_ntcm.py:5-6 | the result does not depend on the order the testimonies were inserted in |
| ExampleNtcm.FailsWithoutWitnesses | to_trust/methods/Example/example_ntcm.py:5-6 | used as the testbed consumer's trust method, it raises ZeroDivision exactly when no witness is asked |
| Util.PairedSumSplit | to_trust/util.py:51-54 | the paired differences add up to the sum of the stops minus the sum of the starts |
| Util.PairedSumNonNegative | to_trust/util.py:51-54 | a clock that never runs backwards gives a non-negative total |
| Util.Profiler.constructor | to_trust/util.py:22-24 | no timers, and every timer counts exactly its stops |
| Util.Profiler.Start | to_trust/util.py:30-34 | a new name gets a fresh timer holding the one start; a known one gets the start appended; other timers are untouched |
| Util.Profiler.Stop | to_trust/util.py:36-41 | an unknown name raises and changes nothing; otherwise the stop is appended and the hit count grows by one |
| Util.Profiler.Switch | to_trust/util.py:26-28 | the stop of the first timer and then the start of the second; nothing changes when the first is unknown |
| Util.Profiler.TotalTime | to_trust/util.py:43-54 | an unknown name raises; an unstopped timer gives 0; otherwise the sum of stops minus the sum of starts |
| Util.Profiler.Profile | to_trust/util.py:56-65 | the wrapped call's result or exception is f's; the timer always gains the start; when f returns it also gains one stop and one hit, and when f raises it gains neither |
| Util.Factor | to_trust/util.py:17-20 | every unit is at least one nanosecond |
| Util.FormatTime | to_trust/util.py:99-108 | a string is shown unchanged; a number is shown divided by its unit's size |
| Util.FormatRange | to_trust/util.py:99-108 | the unit is seconds exactly above 10^9 ns and nanoseconds exactly at most 1000 ns; the shown number exceeds 1 except in nanoseconds and is at most 1000 except in seconds |

## Left out

- Randomness, clocks and elementary functions are inputs, as the introduction lists. The model proves properties for every value these inputs can take, not for their distribution.
- Printing and logging (`log`, `Profiler.show`, `print_manual_timers`, `MetricSystem.measure`) only write text and are not modelled. `Profiler.result` reads `funcs`, which nothing fills, and is not modelled either.
- Util.FormatTime: the text rendering with two decimals and a unit suffix is not modelled. The result is the chosen unit and the scaled number.
- metrics.py imports `Singleton` from util.py, which does not define it, so the module fails on import. The model treats `MetricSystem` as one registry object, as the metaclass intends.
- ITEA.py uses `Consumer` and other names it never imports, so the file fails on import or on first use. The model treats those names as imported.
- to_trust/agents/random_witness.py passes a `starts_lying` keyword that the witness constructor does not accept, so that constructor raises TypeError. RandomWitnesses.RandomWitness.constructor models the construction without the keyword.
- Agents.Agent.constructor: to_trust/agents/agent.py only declares `ring`, and to_trust/agents/witness.py never assigns it. The scenarios assign it. Until then, reading `ring` raises AttributeError. The model starts every agent with an empty list of its own, so `remove_from_ring` before a ring is assigned gives ValueError where the source gives AttributeError. The older revision, TestbedAgents.Agent, does model the missing ring.
- TestbedAgents.Consumer.UpdateProvider: `x / 1 + exp(-x)` is modelled as written, that is `x + exp(-x)`, with `exp(-x)` an input `e`.
- Mae.ComputeMae: `epochs` is a `nat`. A negative `range` bound is not modelled. The source calls `g` three times per term with the same arguments; the model computes it once per term, which gives the same value.
- TravosMethod.Travos.constructor: `num_intervals` is a `nat`. `num_steps_integration` is stored but never read, so it is not kept.
- TravosMethod: the areas under the Beta densities (`quad`) come from an oracle input.
- TravosMethod.Travos.Update always raises AttributeError, because `get_average_value` does not exist. The MAE tail of Mets.Met.Update always raises too: ZeroDivision for an empty network or zero witnesses times days, and AttributeError otherwise, because `self.MAE` does not exist (Mets.MaeTail). The model states these errors and does not model the code after them.
- Mets.Met.Candidates: `select_advisors`' similarity test is not modelled. Its result is an input.
- Mets.Met.constructor: `num_generations`, `delta`, `eta` and `_threshold` are never read by the modelled operations, so they are not kept. The mutation step `delta` (a fractional power of a draw) is an input of Mets.Mutate.
- Mets.Met.CalculateRatingDiff: to_trust/methods/MET/MET.py:149 and :151 each call `witness.score_of(provider)`. The model reads one opinion function twice. A real witness caches and draws on every call, and that effect is not modelled.
- `register_rating_history` in MET.py builds a history nobody reads, and is not modelled.
- Acts.Act.Reweight: the source writes the weights one by one inside its loop. The model builds the new weights and assigns the field once. The final state is the same, because `_pi(w, p)` sums over every witness's parameter for p: a missing parameter raises KeyError already at the first witness, before any weight is written.
- Acts.Act.RecordInteraction, Acts.Act.TestimonyPhase and Acts.Act.ScoringPhase: the loops of `update_provider` and `_testimony_aggregation` run on a copy of the field (Acts.Interact, Acts.Testify, Acts.Score), and the result is assigned to the field once. The copy holds exactly the writes the source makes before the loop stops, so the state after an exception is the source's.
- Acts.Act.RecordInteraction: `_O` and `_D` are one history of `Round(outcome, decision)` pairs. They are registered together and appended together, so a provider has both or neither; a state where only one of them has an entry is not modelled.
- Acts.Act.UpdateProvider and Acts.Act.RecordInteraction: all histories keep the same length only after a complete pass of the history loop. A KeyError part-way leaves p and the providers before it one round longer than the rest, and the model states exactly those rounds.
- Acts.Act.Reinforce: `_update_p` is modelled as written only, up to the AttributeError that `_r` raises on `self.epoch` (to_trust/methods/ACT.py:118). The model keeps no current epoch, so the learning step `_update_p` would make with a correct epoch is not modelled.
- Acts.Act.ChooseProvider: the testimonies are an input function that always returns. A witness whose `score_of` raises inside the testimony loop or `_indirect_trust` (a random witness asked about an unregistered provider) is not modelled, and neither is the cache entry such a call adds to the witness's own score cache.
- Acts.IndirectTrust: the `profiler.start`, `switch` and `stop` calls inside `_indirect_trust` only record clock readings and are left out. Their `stop` cannot raise there, because the timer was started just before.
- Iteas.CurrentPrediction: the non-finite float64 result (`NotFinite`) only arises for a weight sum of 0. While every row stays positive, which Iteas.KeepsPositive and Iteas.Itea.Learn preserve, it cannot arise.
- Scenarios, `visualize_results.py`, `settings.py`, `__main__.py` and the test files are drivers and plots around the core. They are not modelled.

## Findings

| source | as written | input that shows it | evidently intended | confidence | as-written member | corrected member |
|---|---|---|---|---|---|---|
| to_trust/methods/ACT.py:98-101 | `_N_min` is `1 / (2 epsilon^2) * log((1 - theta) / 2)`, without the minus sign of the documented bound (line 11) | epsilon 0.1 and theta 0.5: log(0.25) < 0, so the bound is negative, and `_gamma` is then 1 for every interaction count | `-(1 / (2 epsilon^2)) ln((1 - theta) / 2)`, which is positive for theta in (-1, 1) | not executed | Acts.NMinAsWritten | Acts.NMin |
| to_trust/methods/ACT.py:282-289 | exploitation reads `self.epoch`, which no class assigns; so does `_r` (line 118), which stops `update_provider` through `_update_p` from the second interaction on | any registered provider with the exploration draw above `_pr`: AttributeError; for `update_provider`, a second interaction with p whose first top witness has a parameter for p: AttributeError | the trust formulas, which never read their epoch argument, evaluated without it | not executed | Acts.Act.ChooseProviderAsWritten | Acts.Act.ChooseProvider |
| to_trust/testbed/simulation.py:54 | `witness.update(_step)` passes an argument, but `Witness.update` takes none (to_trust/agents/witness.py:76) | any run with a witness and at least one epoch: TypeError at the first witness update | `witness.update()`, which never raises | not executed | Simulations.AsWrittenWitnessUpdateRaises | Simulations.CorrectedWitnessUpdates |
