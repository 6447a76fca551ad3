# triangle_agents in Dafny

A model of the "blackboard" of triangle_agents, in both of its versions:
`triangle_agents.c` and `triangle_agents.cpp`. Each version has a typed
key/value store, two agents that talk to each other only through that store,
and a pipeline agent that runs the two in turn.

- **Completion agent.** It reads the triangle under `"input_triangle"`. When
  exactly one angle is unknown, it sets that angle to 180 minus the sum of the
  known angles and marks it known. In every other case it reports an error.
- **Classification agent.** It stores under `"is_right_triangle"` whether some
  known angle lies within 0.001 of 90. The C version stores `int` 1/0; the C++
  version stores a `bool`.
- **Pipeline.** It runs completion. It stops with an error if completion
  fails. Otherwise it runs classification and then reads the verdict back.

Files:

- `domain.dfy` (`Domain`): angles, triangles, the payloads an entry can hold,
  the type tags that stand for the C type strings and the C++ `typeid` names,
  and the three addresses the agents use.
- `angle_rules.dfy` (`AngleRules`): the completion and classification rules as
  functions, plus the agents' loops as methods proved equal to them. Both
  versions use the same rules.
- `c_memory.dfy` (`CMemory`): `sc_memory_context` as a class. It has an
  `array<Entry>` and `size`/`capacity` fields. `Store` and `Get` are proved
  against functions on the entries in use.
- `c_agents.dfy` (`CAgents`): the three C agents, as methods on a `Context`.
  Each is proved equal to a step function on the entries.
- `cpp_memory.dfy` (`CppMemory`): `sc::MemoryContext` as a class with two
  `map` fields, `data` and `types`.
- `cpp_agents.dfy` (`CppAgents`): the three C++ agent classes and their
  `Execute` methods. Each is proved equal to a step function on the two maps.

How failures are modelled:

- **C, address not stored.** `sc_memory_get` returns NULL and the agent then
  dereferences it. This is the outcome `Aborted(NullDereference)`.
- **C, wrong type string.** `sc_memory_get` calls `exit`. This is the outcome
  `Aborted(TypeMismatchExit)`.
- **C++, wrong or missing type.** `get<T>` throws. This is the outcome
  `Threw(addr)`.
- **C++, address not stored.** `get<T>` first inserts an empty type name into
  `types`. The model keeps that insertion: a `Get` of such an address leaves
  `types` holding `Unnamed` at that address.

Payloads are held by value. The agents in both sources change the triangle in
place, through the pointer the store hands out. The model instead stores the
completed triangle again at the same address with the same tag. That is an
overwrite, and on the stored entries it has the same effect.

Two behaviours of the code that the model keeps:

- There is no separate key-not-found error. In C a missing address gives
  NULL. In C++ it gives the same type-mismatch exception as a wrong type.
- Classification does not check that all angles are known. It ignores
  unknown angles, whatever their values.

## Model

| member | source | states |
|---|---|---|
| `CMemory.Context.constructor` | triangle_agents.c:24-28 | an empty store with `size` 0 and `capacity` equal to the initial capacity |
| `CMemory.Context.Store` | triangle_agents.c:30-51 | keeps the store invariant (unique addresses, `size <= capacity`, tags naming their data); the entries in use become `Stored(old entries)`; capacity grows only when a new address arrives at a full buffer |
| `CMemory.Context.Get` | triangle_agents.c:53-64 | the linear scan returns the data of the first entry with the address when its tag matches, Mismatch (the exit) when the tag differs, Absent (NULL) when no entry has the address |
| `CMemory.IndexOf` | triangle_agents.c:32-38 | the scan result is the first position holding the address, or none when no entry holds it |
| `CMemory.Find` | triangle_agents.c:53-64 | on a store whose tags name their data, a successful get returns a value of the requested type |
| `CMemory.StoreKeepsKeysUnique` | triangle_agents.c:30-50 | storing never creates a second entry for an address |
| `CMemory.StoreKeepsConforming` | triangle_agents.c:30-50 | storing with a tag that names the data keeps every entry's tag truthful |
| `CMemory.StoreOverwritesInPlace` | triangle_agents.c:31-38 | storing to a present address replaces that entry's data and tag at its position; the number of entries and all other entries are unchanged |
| `CMemory.StoreAppendsNew` | triangle_agents.c:46-50 | storing to a new address appends exactly one entry at index `size` and keeps the earlier entries |
| `CMemory.StoreThenGet` | triangle_agents.c:30-64 | round trip: after storing `(k, v, t)`, getting `(k, t)` returns `v` |
| `CMemory.StoreThenGetOtherTag` | triangle_agents.c:53-60 | after storing `(k, v, t)`, getting `k` with any other tag takes the type-mismatch exit |
| `CMemory.StoreLeavesOtherKeys` | triangle_agents.c:30-50 | storing at one address changes what no other address yields, for any tag |
| `CMemory.GetAbsent` | triangle_agents.c:54-63 | getting an address no entry holds returns NULL |
| `CMemory.GetFindsEntry` | triangle_agents.c:54-60 | with unique addresses, get on an entry's address yields that entry's data when the tag matches and a mismatch otherwise |
| `CMemory.DoubledCapacity` | triangle_agents.c:41-44 | the growth as written: a positive capacity strictly grows |
| `CMemory.GrownCapacity` | triangle_agents.c:41-44 | the growth used by the model: always strictly larger, and equal to doubling whenever the capacity is positive |
| `CMemory.DoubledZeroLeavesNoRoom` | triangle_agents.c:41-50 | as written, the first store into a store of capacity 0 leaves one entry in use while the doubled capacity is still 0 |
| `CMemory.GrownLeavesRoom` | triangle_agents.c:41-50 | with the corrected growth, every store keeps the entries in use within the capacity after the store, which is how `Context.Store` keeps `size <= capacity` |
| `AngleRules.FirstUnknown` | triangle_agents.c:97-98 | the position returned holds an unknown angle and every earlier angle is known |
| `AngleRules.TallyAngles` | triangle_agents.c:85-94 | the counting loop yields the number of unknown angles and the sum of the known values |
| `AngleRules.CompleteAngles` | triangle_agents.c:85-107 | the two loops of the completion agent compute exactly `Completion(t)` |
| `AngleRules.FindRightAngle` | triangle_agents.c:117-124 | the classification loop answers true exactly when some known angle is strictly within 0.001 of 90 |
| `AngleRules.AllKnownIffNoUnknown` | triangle_agents.c:88-94 | the unknown count is 0 exactly when every angle is known |
| `AngleRules.FillGap` | triangle_agents.c:99-100 | making an unknown angle known lowers the unknown count by one and adds its value to the known sum |
| `AngleRules.SumKnownOfAllKnown` | triangle_agents.c:88-94 | when all angles are known, the known sum is the sum of all values |
| `AngleRules.UnknownCountIsOne` | triangle_agents.c:96 | an unknown count of 1 holds exactly when there is one unknown angle and the others are known (both directions) |
| `AngleRules.CompletionFillsTheGap` | triangle_agents.c:96-104 | with one gap at `i`, completion succeeds; angle `i` becomes known with value 180 minus the known sum; the other angles are unchanged; all three are known and sum to exactly 180 |
| `AngleRules.CompletionRejects` | triangle_agents.c:96-110 | completion fails exactly when there is no gap or more than one |
| `AngleRules.CompletionKeepsKnown` | triangle_agents.c:97-100 | completion never changes a known angle |
| `AngleRules.SumOfTwoKnown` | triangle_agents.c:85-94 | when only the third angle is unknown, the known sum is the first two values |
| `AngleRules.UnknownValueIgnored` | triangle_agents.c:117-124 | classification looks only at known angles: changing the value of an unknown angle never changes the verdict |
| `CAgents.AbortOf` | triangle_agents.c:54-63 | a failed get stops the process: a NULL dereference exactly when the address was absent, the type-mismatch exit otherwise |
| `CAgents.CalculateAnglesStep` | triangle_agents.c:81-111 | completion keeps every stored tag truthful |
| `CAgents.CheckRightAngleStep` | triangle_agents.c:113-129 | classification keeps every stored tag truthful |
| `CAgents.CalculateAnglesAgent` | triangle_agents.c:81-111 | keeps the store invariant; outcome and new entries are `CalculateAnglesStep` of the old entries |
| `CAgents.CheckRightAngleAgent` | triangle_agents.c:113-129 | keeps the store invariant; outcome and new entries are `CheckRightAngleStep` of the old entries |
| `CAgents.TriangleProcessingAgent` | triangle_agents.c:131-146 | keeps the store invariant; outcome and new entries are `ProcessStep` of the old entries; the two "classification failed" and "verdict unreadable" branches are proved unreachable |
| `CAgents.CompletedTriangleStaysReadable` | triangle_agents.c:131-140 | after a successful completion the triangle is still readable under its address and type, so classification cannot abort |
| `CAgents.CalculateAnglesCompletes` | triangle_agents.c:96-104 | on a stored triangle with a single gap the agent returns OK. The stored triangle gets the gap filled with 180 minus the known sum, keeps its other angles, and sums to 180. No entry is added and every other address is unchanged |
| `CAgents.CalculateAnglesRejects` | triangle_agents.c:96-110 | with no gap or more than one, the agent returns ERROR and the entries are unchanged |
| `CAgents.CheckRightAngleStoresVerdict` | triangle_agents.c:117-128 | the agent returns OK and stores int 1 under "is_right_triangle" exactly when some known angle is within 0.001 of 90, 0 otherwise; every other address is unchanged |
| `CAgents.StoreTwice` | triangle_agents.c:30-38 | storing the same data under the same address twice equals storing it once |
| `CAgents.CheckRightAngleIdempotent` | triangle_agents.c:113-129 | classifying again after classifying gives the same outcome and the same entries |
| `CAgents.ProcessErrorIffCompletionError` | triangle_agents.c:131-140 | the pipeline returns ERROR exactly when completion does; then classification has not run and the entries are unchanged |
| `CAgents.ProcessStoresVerdict` | triangle_agents.c:131-145 | when completion succeeds, the pipeline returns OK; the stored triangle is the completed one and "is_right_triangle" holds its verdict |
| `CAgents.RightTriangleScenario` | triangle_agents.c:177-194 | (90, 45, ?) with a rule set: OK, the triangle becomes (90, 45, 45) and the verdict 1 is appended as the third entry |
| `CAgents.AcuteTriangleScenario` | triangle_agents.c:196-208 | on the store the first run left, storing (60, 60, ?) over the triangle and running the pipeline gives OK, (60, 60, 60) and the verdict overwritten with 0, still three entries |
| `CAgents.DegenerateTriangleScenario` | triangle_agents.c:96-128 | (90, 90, ?) is not rejected: the gap becomes 0 and the triangle is classified right-angled |
| `CppMemory.WithStored` | triangle_agents.cpp:20-24 | storing keeps the two maps consistent |
| `CppMemory.Fetch` | triangle_agents.cpp:26-32 | a get keeps the two maps consistent, and a value it yields has the requested type |
| `CppMemory.MemoryContext.constructor` | triangle_agents.cpp:16-18 | both maps start empty |
| `CppMemory.MemoryContext.Store` | triangle_agents.cpp:20-24 | `data[addr]` becomes the value and `types[addr]` its type name; every other key of both maps is unchanged |
| `CppMemory.MemoryContext.Get` | triangle_agents.cpp:26-32 | `data` is unchanged; `types` gains an empty name at an address it lacked; the result is the value when the stored type is the requested one, a type-mismatch error otherwise |
| `CppMemory.StoreThenGet` | triangle_agents.cpp:20-32 | round trip: getting with the type just stored yields the value just stored and changes neither map |
| `CppMemory.StoreThenGetOtherTag` | triangle_agents.cpp:26-30 | re-storing replaces the type name: a get with any other type now throws |
| `CppMemory.StoreLeavesOtherKeys` | triangle_agents.cpp:20-24 | storing at one address changes what no other address yields |
| `CppMemory.GetAbsentThrows` | triangle_agents.cpp:28-29 | getting an address with no data throws, leaves `data` unchanged and leaves an empty type name at that address |
| `CppMemory.GetPresentChangesNothing` | triangle_agents.cpp:26-32 | getting an address that holds data changes neither map |
| `CppAgents.FetchInputs` | triangle_agents.cpp:54-55 | the two opening gets succeed exactly when the triangle and the rule set are stored with their types; on failure `data` is unchanged and the address reported is the first get that failed |
| `CppAgents.GetInputs` | triangle_agents.cpp:54-55 | the two gets on the context compute `FetchInputs` |
| `CppAgents.CalculateAnglesStep` | triangle_agents.cpp:53-81 | completion keeps the two maps consistent |
| `CppAgents.CheckRightAngleStep` | triangle_agents.cpp:86-102 | classification keeps the two maps consistent |
| `CppAgents.CalculateAnglesAgent.Execute` | triangle_agents.cpp:53-81 | keeps the maps consistent; outcome and new maps are `CalculateAnglesStep` of the old ones |
| `CppAgents.CheckRightAngleAgent.Execute` | triangle_agents.cpp:86-102 | keeps the maps consistent; outcome and new maps are `CheckRightAngleStep` of the old ones |
| `CppAgents.TriangleProcessingAgent.Execute` | triangle_agents.cpp:107-124 | keeps the maps consistent; outcome and new maps are `ProcessStep` of the old ones; the "classification failed" and "verdict unreadable" branches are proved unreachable |
| `CppAgents.CompletionKeepsInputsReadable` | triangle_agents.cpp:110-118 | after a successful completion both opening gets of the classifier still succeed |
| `CppAgents.UnreadableInputsThrow` | triangle_agents.cpp:54-55 | if either opening get fails, both worker agents throw for the first failing address, before any angle is read; no stored value changes |
| `CppAgents.CalculateAnglesCompletes` | triangle_agents.cpp:57-75 | with a single gap at `i` the agent returns Ok. The stored triangle gets 180 minus the known sum at `i`, keeps its other angles, and sums to 180. `types` and all other data are unchanged |
| `CppAgents.CalculateAnglesRejects` | triangle_agents.cpp:68-80 | with no gap or more than one, the agent returns Error and changes neither map |
| `CppAgents.CheckRightAngleStoresVerdict` | triangle_agents.cpp:90-101 | the agent returns Ok and stores `true` under "is_right_triangle" exactly when some known angle is within 0.001 of 90, `false` otherwise; nothing else changes |
| `CppAgents.CheckRightAngleIdempotent` | triangle_agents.cpp:86-102 | classifying again after classifying gives the same outcome and the same maps |
| `CppAgents.ProcessErrorIffCompletionError` | triangle_agents.cpp:110-113 | the pipeline returns Error exactly when completion does; then classification has not run and neither map changed |
| `CppAgents.ProcessStoresVerdict` | triangle_agents.cpp:110-123 | when completion succeeds, the pipeline returns Ok with the completed triangle stored and its verdict as a bool under "is_right_triangle" |
| `CppAgents.RightTriangleScenario` | triangle_agents.cpp:155-173 | (90, 45, ?) with the rule map: Ok, the triangle becomes (90, 45, 45) and the verdict is `true` |
| `CppAgents.AcuteTriangleScenario` | triangle_agents.cpp:175-187 | on the context the first run left, (60, 60, ?) becomes (60, 60, 60) and the verdict is overwritten with `false` |

The rules themselves are plain functions, specified by the lemmas above and
not by ensures of their own:

- `AngleRules.Completion`, `AngleRules.HasRightAngle`, `UnknownCount`, `SumKnown`.
- `CMemory.Stored`.
- `CAgents.ProcessStep`, `CppAgents.ProcessStep`, `CppMemory.Probed`.

## Left out

- `print_sc_memory` in both files: it only formats the store for output.
- `main` in both files and its output. Its two runs are lemmas here (`RightTriangleScenario`, `AcuteTriangleScenario`).
- `sc_log_event` / `log_sc_event`: console output. No events are modelled.
- `malloc`, `realloc` and `strdup` failing, `free`, and the leak of the old type string on overwrite: the model has no allocation failure or memory reclamation.
- The pointer to the stack variable `is_right`: both classifiers store it, and the pipeline dereferences it after it has gone out of scope. Payloads here are held by value, so that dangling reference does not exist in the model.
- `double` rounding: angles are `real`. The sum to 180 and the 0.001 tolerance are therefore exact.
- `typeid(T).name()` strings and `strcmp` on C type strings: both become the `Tag` datatype, compared with `==`.
- The C++ exception and the C `exit`: both become outcome values (`Threw`, `Aborted`). Nothing is modelled about unwinding or process exit beyond the store's state at that point.
- CMemory.Context.Store: requires the tag to name the type of the data. The C function accepts any type string, and only its callers keep the two in step. A store entry whose type string lies about its data is not modelled.
- In the C harness the dummy rule set is an `int` stored with the type string "rules_set". Because of the requirement above, the C scenarios store an empty rule map instead. No agent reads that value.
- Neither model has live mutable access to a stored triangle; both sources write the completed angle through the pointer the store hands out. The in-place write is modelled as re-storing at the same address, which changes the same entry and nothing else.

## Findings

| source | as written | input that shows it | evidently intended | confidence | as-written member | corrected member |
|---|---|---|---|---|---|---|
| triangle_agents.c:41-44 | a full buffer grows by `capacity *= 2` | `sc_memory_init(&ctx, 0)`, then `sc_memory_store` of any address: capacity stays 0 and `entries[0]` is written past a zero-length buffer | the buffer grows to at least one more slot than it holds | high; not executed | `CMemory.DoubledZeroLeavesNoRoom` | `CMemory.GrownLeavesRoom` |

The model's `Store` uses the corrected growth, `CMemory.GrownCapacity`: it
doubles a positive capacity and turns 0 into 1. The harness initialises with
capacity 10, so on its inputs the two growth rules agree.
`CMemory.Context.Store` carries the intended property for the class: its
`ensures Valid()` keeps `size <= capacity` after every store.
