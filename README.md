# PlanMiner GVGAI agents: the symbolic grounding engine

The PlanMiner agents play a GVGAI game at random and record a symbolic
trace of each game, for a planning-domain learner. At every turn an agent
does four things:

1. It grounds the current game state into a PDDL state string,
   `(ATOM ATOM ...)`.
2. It grounds the action it is about to take into one action atom.
3. It appends both to the two trace lists, `gamePredicates` and
   `executedActions`.
4. It appends the final state when the game ends.

This project models that grounding engine and proves properties of it.
It covers four Java classes:

- `RandomAgent`, with plain atoms and cached connection atoms;
- `AbstractRandomAgent`, the base of the two variants, with the resource
  ledger and the look-ahead;
- `CellBasedRandomAgent`, with resource atoms, connections, and cell-based
  move and use actions;
- `NumericRandomAgent`, with numeric fluents `(= ATOM n)`.

## Modules

- **Options** and **Seqs.** Sequence vocabulary:
  - `Insert` and `Dedup` model a `LinkedHashSet` (insertion order, no
    duplicates);
  - `Flatten` and `ConcatMap` model nested loops.
- **Text.** The Java string operations the engine uses:
  - `String.replace`, every literal occurrence, left to right;
  - `toUpperCase`, on ASCII letters only;
  - `%d` formatting of an `int`;
  - `String.join`;
  - the final `(%s)` wrapping, as `Render`.
- **Domain.** The game configuration (`GameInformation`) and the engine
  snapshot the agents read:
  - the element grid;
  - the avatar's orientation, pixel position and block size;
  - the resource observations;
  - the game-over flag.

  It also holds the avatar and cell object names, Java's truncating
  integer division, and the orientation-to-direction mapping.
- **Variables.** `extractVariablesFromPredicates`: the `\?[a-zA-Z]+`
  tokens of each sprite key's templates.
- **Adjacency** and **Connections.** `generateConnectionPredicates`:
  - Adjacency holds the directed in-bounds links of a W×H grid, their
    number, and their generation order.
  - Connections holds the connection atoms built from those links.
- **Grounding.** The element walk of `translateGameStateToPDDL`:
  - variable instances;
  - the orientation atom;
  - the plain or numeric finish of each template.
- **ElementsMatrix.** `getGameElementsMatrix`: each cell's set of sprite
  keys, with `background` for an empty cell.
- **States.** The state string shared by all agents.
- **Actions.** Every action-grounding routine:
  - `createAvatarAction` and `createMoveAction`, in all three variants;
  - `createUseAction` and `createMovementAction`;
  - the resource-variable lookup of a picking move.
- **Ledger.** `updatePickedResources`, `countResourcesStateObservation`
  and `getNumberResources`.
- **PlanTrace.** The static trace lists and the line formats of
  `displayPostGameInformation`.
- **RandomAgentModel**, **CellBasedAgentModel** and **NumericAgentModel.**
  The three agents, as classes whose `Act` methods update the trace, the
  ledger and the game-over flag.

### Hidden orders

Three Java orders are hidden, so the model takes them as inputs and proves
nothing that depends on them:

- the iteration order of a `HashSet` of sprite keys, the `enumerate`
  function of each agent. Each agent requires it to list every set once
  each, with exactly the set's elements (`ElementsMatrix.Enumerates`);
- the key order of the ledger's `HashMap`, `ResourceLedger.keys`;
- the iteration order of each sprite's `HashSet` of variables
  (RandomAgent.java:404, AbstractRandomAgent.java:357). It decides the
  order in which a template's variables are replaced, which matters when
  one variable is a prefix of another (`?a` and `?ab`), and which
  variable a picking move takes as the last non-cell one.
  `Variables.ExtractVariablesFromPredicates` promises each list's set of
  elements and no order.

## Model

| member | source | states |
|---|---|---|
| Variables.ExtractVariablesFromPredicates | src/main/java/controller/RandomAgent.java:394-421 | one entry per sprite key of the correspondence; each entry lists, without duplicates, exactly the variable tokens of that key's templates |
| Variables.FindVariables | src/main/java/controller/AbstractRandomAgent.java:347-374 | scanning one template adds exactly its tokens to the set found so far and keeps it duplicate-free |
| Variables.TokensIff | src/main/java/controller/RandomAgent.java:398-413 | a string is among the tokens found in a template iff it occurs there as `?` followed by a maximal run of letters |
| Variables.VarSetIff | src/main/java/controller/RandomAgent.java:401-417 | a token is in a key's variable set iff it occurs as a token in one of the key's templates |
| Variables.VarSetTokens | src/main/java/controller/RandomAgent.java:398 | every extracted variable has the shape `?letters` |
| Adjacency.AllLinksMembers | src/main/java/controller/RandomAgent.java:320-380 | a directed link is generated iff both its source cell and its neighbour in that direction lie on the map |
| Adjacency.OpenInBounds | src/main/java/controller/RandomAgent.java:327-376 | each per-direction guard holds iff the neighbouring cell lies on the map |
| Adjacency.AllLinksCount | src/main/java/controller/RandomAgent.java:320-380 | a W×H map gives 4WH − 2W − 2H directed links, that is, insertions into the connection set |
| Adjacency.AllLinksOrdered | src/main/java/controller/RandomAgent.java:320-380 | links are generated row by row (y outer), cell by cell (x inner), and in UP, DOWN, LEFT, RIGHT order within a cell |
| Connections.GenerateConnectionPredicates | src/main/java/controller/RandomAgent.java:311-385 | the loop builds exactly the insertion-ordered, duplicate-free set of connection atoms of the map's links |
| Connections.ConnectionSetMembers | src/main/java/controller/RandomAgent.java:311-385 | the connection set has no duplicates, and an atom is in it iff it is the atom of an in-bounds link |
| Connections.ConnectionSetSound | src/main/java/controller/CellBasedRandomAgent.java:310-384 | every stored connection is the atom of an in-bounds link |
| Connections.ConnectionSetComplete | src/main/java/controller/CellBasedRandomAgent.java:310-384 | the atom of every in-bounds link is stored |
| Connections.ConnectionSetOrder | src/main/java/controller/RandomAgent.java:311-385 | stored connections keep the order in which each was first inserted |
| Connections.ConnectionSetUpper | src/main/java/controller/RandomAgent.java:330-380 | every connection atom is upper case |
| Connections.ConnectionSetCount | src/main/java/controller/RandomAgent.java:320-380 | the connection set holds at most 4WH − 2W − 2H atoms, the number of insertions, and exactly that many when distinct in-bounds links give distinct atoms |
| Connections.AddConnection | src/main/java/controller/RandomAgent.java:330-336 | one direction's template, with the two cells substituted, is inserted into the set |
| Grounding.GroundElements | src/main/java/controller/RandomAgent.java:176-239 | the element walk (y outer, x inner, the cell's keys, the templates, the variables) produces exactly the element atoms of the grid; the facing must resolve only when some walked template binds the avatar variable with a table present |
| Grounding.BindVariable | src/main/java/controller/RandomAgent.java:190-229 | a variable absent from the template changes nothing; a present one is replaced by its instance, and the avatar adds the upper-cased orientation atom when the game has an orientation table; the facing must resolve only in that last case |
| Grounding.GroundTemplate | src/main/java/controller/NumericRandomAgent.java:75-125 | one template gives its orientation atoms and then its finished atom, which is plain or `(= ATOM coordinate)` |
| Grounding.TemplateNeedsFacingIff | src/main/java/controller/RandomAgent.java:191-219 | a template looks the avatar's facing up exactly when it emits an orientation atom, so the walk's precondition on the facing is needed only where the source reads the table |
| Grounding.ElementAtomsMembers | src/main/java/controller/RandomAgent.java:176-239 | an atom is a state's element atom iff some cell holds a known key with a template that grounds to it there |
| Grounding.CellAtomsSkipsUnknown | src/main/java/controller/RandomAgent.java:181 | a key absent from the correspondence contributes nothing |
| Grounding.OrientationAtomsCount | src/main/java/controller/RandomAgent.java:201-218 | a template adds one orientation atom exactly when it mentions the avatar variable and the game has an orientation table |
| Grounding.OrientationAtomsMembers | src/main/java/controller/RandomAgent.java:215-218 | each added orientation atom is the table's template for the avatar's facing, with the avatar instantiated |
| Grounding.BindIgnoresAbsent | src/main/java/controller/RandomAgent.java:191 | a variable the template does not contain leaves both the atom and the orientation atoms unchanged |
| Grounding.BindNoVariables | src/main/java/controller/RandomAgent.java:191-228 | a template without placeholders is kept verbatim and adds no orientation atom |
| Grounding.VariableInstanceShape | src/main/java/controller/RandomAgent.java:193-225 | an instance has no `?`; the avatar's instance is the same in every cell; other instances are `name_x_y - type` |
| Grounding.NumericWrapsPlain | src/main/java/controller/NumericRandomAgent.java:119-125 | the numeric atom is the plain atom wrapped as `(= ATOM n)` |
| Grounding.TemplateAtomsStyles | src/main/java/controller/NumericRandomAgent.java:119-125 | a template's numeric atoms and plain atoms differ only in that wrapping; an instantiated atom mentioning `column` takes x, any other takes y |
| Grounding.ElementAtomsUpper | src/main/java/controller/RandomAgent.java:234 | every element atom is upper case |
| ElementsMatrix.GetGameElementsMatrix | src/main/java/controller/RandomAgent.java:255-285 | the matrix has the grid's size, and each cell's set comes from that cell's observations |
| ElementsMatrix.CellKeys | src/main/java/controller/AbstractRandomAgent.java:280-293 | a cell's set is the keys of its observations, or `background` when the cell is empty |
| ElementsMatrix.CellSetContents | src/main/java/controller/AbstractRandomAgent.java:280-293 | a cell's set is never empty; it is `{background}` exactly for an empty cell and otherwise holds precisely the observed keys |
| ElementsMatrix.EnumeratedCell | src/main/java/controller/AbstractRandomAgent.java:291-293 | under any duplicate-free enumeration, an empty cell is walked as `background` alone, and any other cell walks exactly its observed keys |
| ElementsMatrix.EnumeratedGrid | src/main/java/controller/RandomAgent.java:177-179 | the walked grid is rectangular, has the matrix's size, and each cell enumerates that cell's set |
| States.GroundSnapshot | src/main/java/controller/CellBasedRandomAgent.java:60-131 | building the matrix and walking it gives the snapshot's element atoms |
| States.SnapshotAtomsUpper | src/main/java/controller/RandomAgent.java:234 | every element atom of a snapshot is upper case |
| States.RenderParts | src/main/java/controller/RandomAgent.java:244 | a state string is `(` + the atoms joined by single spaces + `)`; a second part follows the first after one space; an empty list gives `()` |
| Actions.AvatarActionObjects | src/main/java/controller/RandomAgent.java:430-438 | an avatar action is `(NAME AVATAR - TYPE)`, with markers stripped and upper case |
| Actions.MoveActionObjects | src/main/java/controller/RandomAgent.java:453-493 | a move names the avatar, the current cell and the target cell displaced by the switch (one step up, down, left or right for the four `MOVE_*` names), and gets `_PICK_RESOURCE` exactly when a resource was picked |
| Actions.MoveDisplacementOfNames | src/main/java/controller/RandomAgent.java:463-476 | the MOVE_* names move one cell in their direction; USE and every ACTION_* name of the abstract table fall through the switch untouched |
| Actions.MoveDisplacement | src/main/java/controller/RandomAgent.java:463-476 | the switch moves by one axis step or not at all |
| Actions.TermsNormalise | src/main/java/controller/RandomAgent.java:486-490 | the avatar and cell terms, stripped and upper-cased, are the object names that appear in the state atoms |
| Actions.UseActionObjects | src/main/java/controller/CellBasedRandomAgent.java:265-300 | the use action names the avatar, its cell and the faced cell; facing none of the four directions names the avatar's own cell |
| Actions.MovementActionObjects | src/main/java/controller/CellBasedRandomAgent.java:399-436 | a movement with the orientation unchanged is a use action at the target; when the orientation changes, the target is left at the current cell, so the atom names the avatar and the current cell twice |
| Actions.CellPickActionObjects | src/main/java/controller/CellBasedRandomAgent.java:209-243 | a picking move names the avatar, both cells and the picked resource object, after `_PICK_RESOURCE` |
| Actions.NumericPickActionObjects | src/main/java/controller/NumericRandomAgent.java:176-209 | the numeric picking move names the avatar and the resource object at the target cell |
| Actions.FindResourceObservation | src/main/java/controller/CellBasedRandomAgent.java:219-225 | the scan keeps the last observation at the target pixel, or none |
| Actions.LastAtNone | src/main/java/controller/CellBasedRandomAgent.java:219-225 | the scan finds nothing iff no observation lies at exactly the target pixel |
| Actions.LastAtIsLast | src/main/java/controller/CellBasedRandomAgent.java:219-225 | a found observation lies at the target, and no later one does |
| Actions.FindResourceVariable | src/main/java/controller/CellBasedRandomAgent.java:230-234 | the loop computes the resource variable |
| Actions.ResourceVariableIsLast | src/main/java/controller/CellBasedRandomAgent.java:230-234 | the resource variable is the last of the sprite's variables other than the cell variable, or empty when there is none |
| Actions.CreateCellMoveAction | src/main/java/controller/CellBasedRandomAgent.java:178-253 | without a pick the atom is the plain move; with a pick it is `…_PICK_RESOURCE` naming the resource object found at the target cell |
| Actions.CreateNumericMoveAction | src/main/java/controller/NumericRandomAgent.java:149-218 | without a pick the atom is the avatar action; with a pick it names the avatar and the resource object at the target |
| Actions.TurnNames | src/main/java/controller/RandomAgent.java:134-136 | replacing MOVE by TURN gives TURN_UP, TURN_DOWN, TURN_LEFT and TURN_RIGHT, and leaves USE and the ACTION_* names unchanged |
| Actions.MoveToTurn | src/main/java/controller/RandomAgent.java:136 | `MOVE_x`, whose suffix holds no M, turns into `TURN_x` |
| Actions.DispatchOrders | src/main/java/controller/AbstractRandomAgent.java:226-230 | a USE during which the orientation changes takes RandomAgent's orientation-changed branch, where the replacement leaves "USE" as it is, so RandomAgent records the avatar-only atom `(USE AVATAR - TYPE)`; the abstract agents test USE first and record the use atom at the faced cell |
| Ledger.CountResourcesStateObservation | src/main/java/controller/AbstractRandomAgent.java:396-407 | each ledger key gains the number of observations of that sprite, and no key is added |
| Ledger.CountIsMultiplicity | src/main/java/controller/AbstractRandomAgent.java:402-405 | a key's count is the multiplicity of its sprite among all observations |
| Ledger.ResourceLedger.constructor | src/main/java/controller/AbstractRandomAgent.java:87-91 | one entry per picked-resource key, every count zero |
| Ledger.ResourceLedger.UpdatePickedResources | src/main/java/controller/AbstractRandomAgent.java:376-394 | each key's picked count grows by (current-state count − next-state count), unclamped; the keys stay the same |
| Ledger.ZeroCounts | src/main/java/controller/AbstractRandomAgent.java:382-385 | the fresh count map has exactly the ledger keys, all zero |
| Ledger.AccumulatedTelescopes | src/main/java/controller/AbstractRandomAgent.java:390-393 | over chained turns, the summed deltas equal the first current-state count minus the last next-state count |
| Ledger.GetNumberResources | src/main/java/controller/RandomAgent.java:495-505 | the total is the number of resource observations over all types |
| Ledger.TotalChangeShowsInLedger | src/main/java/controller/RandomAgent.java:146 | when the total number of resources differs between two states, some ledger key has a non-zero delta |
| Ledger.SumCountsTotal | src/main/java/controller/AbstractRandomAgent.java:396-407 | when every sprite is a ledger key, the per-key counts add up to the whole observation count |
| PlanTrace.Trace.AddState | src/main/java/controller/RandomAgent.java:119 | one state string is appended, and the action list is unchanged |
| PlanTrace.Trace.AddAction | src/main/java/controller/RandomAgent.java:156 | one action atom is appended, and the state list is unchanged |
| PlanTrace.Trace.RemoveLastState | src/main/java/controller/AbstractRandomAgent.java:192-195 | the last state string is dropped, and nothing else changes |
| PlanTrace.TaskLineInjective | src/main/java/controller/RandomAgent.java:294 | a line `[i, i+1]: action` determines both i and the action |
| PlanTrace.StateLineInjective | src/main/java/controller/RandomAgent.java:299 | a line `[i]: state` and its blank line determine both i and the state |
| RandomAgentModel.RandomAgent.constructor | src/main/java/controller/RandomAgent.java:74-98 | the variables are extracted, and the connection set is generated for the initial map's size |
| RandomAgentModel.RandomAgent.TranslateGameStateToPDDL | src/main/java/controller/RandomAgent.java:168-245 | the state string is the snapshot's element atoms followed by all cached connections, rendered |
| RandomAgentModel.RandomAgent.Act | src/main/java/controller/RandomAgent.java:110-159 | on a state with at least one resource type, appends the current state, then the predicted state when it ends the game, then exactly the dispatched action atom, and returns the drawn action |
| RandomAgentModel.RandomAgent.StateIsUpper | src/main/java/controller/RandomAgent.java:168-245 | a state string has no lower-case letter |
| RandomAgentModel.RandomAgent.ConnectionsLast | src/main/java/controller/RandomAgent.java:241-244 | the connections follow the element atoms, after one space |
| RandomAgentModel.RandomAgentActionObjects | src/main/java/controller/RandomAgent.java:134-149 | a turn or USE atom names only the avatar; a move atom names the avatar, its cell and the cell one step in its direction, `_PICK_RESOURCE` exactly when the total number of resources changed |
| CellBasedAgentModel.FirstTerminal | src/main/java/controller/AbstractRandomAgent.java:247-256 | the first simulated future that ends the game, if there is one: there is none iff no future ends it |
| CellBasedAgentModel.RolledBack | src/main/java/controller/AbstractRandomAgent.java:192-195 | with the flag set, the rolled-back list plus its last element is the old list; otherwise the list is unchanged |
| CellBasedAgentModel.ResourcePredicatesMembers | src/main/java/controller/CellBasedRandomAgent.java:147-162 | an atom is a resource atom iff some key with a positive picked count grounds to it |
| CellBasedAgentModel.ResourcePredicatesNone | src/main/java/controller/CellBasedRandomAgent.java:152-159 | with no positive count there are no resource atoms |
| CellBasedAgentModel.ResourcePredicatesUpper | src/main/java/controller/CellBasedRandomAgent.java:155-157 | every resource atom is upper case |
| CellBasedAgentModel.CellBasedRandomAgent.constructor | src/main/java/controller/AbstractRandomAgent.java:71-103 | the variables of each sprite key are extracted (duplicate-free, exactly the key's tokens), the ledger holds every picked-resource key at zero, the flag is clear, and the connections are generated for the initial map |
| CellBasedAgentModel.CellBasedRandomAgent.CreateResourcePredicates | src/main/java/controller/CellBasedRandomAgent.java:147-162 | the loop over the ledger keys gives the resource atoms of the positive counts, in key order |
| CellBasedAgentModel.CellBasedRandomAgent.TranslateGameStateToPDDL | src/main/java/controller/CellBasedRandomAgent.java:60-140 | the element atoms, then the resource atoms of the current ledger, then the connections, rendered |
| CellBasedAgentModel.CellBasedRandomAgent.RollBack | src/main/java/controller/AbstractRandomAgent.java:192-195 | a previously recorded end state is removed and the flag cleared |
| CellBasedAgentModel.CellBasedRandomAgent.BeginTurn | src/main/java/controller/AbstractRandomAgent.java:192-217 | after the rollback, the current state is recorded with the ledger as it was, then the ledger grows by the turn's deltas |
| CellBasedAgentModel.CellBasedRandomAgent.InstantiateAction | src/main/java/controller/AbstractRandomAgent.java:219-230 | USE gives the use action; every other action gives the movement action with the orientation test |
| CellBasedAgentModel.CellBasedRandomAgent.LookAhead | src/main/java/controller/AbstractRandomAgent.java:247-256 | the flag ends set iff a simulated future ends the game, and then exactly the first such state is recorded, with the updated ledger |
| CellBasedAgentModel.CellBasedRandomAgent.Act | src/main/java/controller/AbstractRandomAgent.java:190-259 | the state list is rolled back, extended by the current state and then by the first terminal future if any, and the action list by one atom; the ledger grows by the turn's deltas; the flag says whether an end was seen; the trace keeps one extra state exactly while the flag is set |
| CellBasedAgentModel.CellBasedRandomAgent.StateIsUpper | src/main/java/controller/CellBasedRandomAgent.java:60-140 | a state string has no lower-case letter |
| CellBasedAgentModel.CellBasedRandomAgent.NothingPickedNoResources | src/main/java/controller/CellBasedRandomAgent.java:134 | before anything is picked, the state is the element atoms and the connections alone |
| NumericAgentModel.NumericRandomAgent.constructor | src/main/java/controller/NumericRandomAgent.java:45-47 | the variables of each sprite key are extracted |
| NumericAgentModel.NumericRandomAgent.TranslateGameStateToPDDL | src/main/java/controller/NumericRandomAgent.java:56-133 | the state string is the snapshot's numeric element atoms alone, rendered |
| NumericAgentModel.NumericRandomAgent.StateIsUpper | src/main/java/controller/NumericRandomAgent.java:56-133 | a numeric state string has no lower-case letter |
| Text.ReplaceAbsent | src/main/java/controller/RandomAgent.java:228 | replacing a target that does not occur leaves the string unchanged |
| Text.ContainsIff | src/main/java/controller/RandomAgent.java:191 | `contains` holds iff the target occurs at some position |
| Text.IntToStringInjective | src/main/java/controller/RandomAgent.java:221-224 | distinct integers print differently, so cell names of different coordinates differ |
| Domain.JavaDiv | src/main/java/controller/RandomAgent.java:143-144 | Java's division truncates toward zero |
| Domain.FacedCellIsStep | src/main/java/controller/CellBasedRandomAgent.java:279-287 | facing one of the four unit directions names the neighbouring cell that way |
| Domain.CellInstanceInjective | src/main/java/controller/RandomAgent.java:220-225 | instances of the same cell variable at different cells differ |
| Domain.AllObservationsMembers | src/main/java/controller/RandomAgent.java:499-503 | the flattened observation list holds exactly the observations of every resource type |

## Left out

### Preconditions that stand for Java crashes

Where the Java would throw, the model's precondition excludes the input:

- `Translatable` / `OrientationResolves`: when the walk of the grid grounds
  a template that contains the avatar variable, and the game has an
  orientation table, the avatar's facing must resolve in the table.
  Otherwise Java calls `replace` on `null` (RandomAgent.java:215-218).
  States in which no such template is grounded are translated whatever
  the orientation (`Grounding.GridNeedsFacing`).
- `ConnectionsCover`: the connection table lists a template for each
  direction the generator tests on the map. Otherwise Java calls
  `replace` on `null` (RandomAgent.java:331, 345, 358, 371).
- `ReadableGrid`: the element grid has at least one column, and no column
  is shorter than the first. The Java reads the height from
  `getObservationGrid()[0]` and then reads that many cells of every column.
- `SpritesKnown`: every observed resource sprite is a ledger key.
  Otherwise `countResourcesStateObservation` unboxes `null`.
- `PickResolves`: a resource observation and its variables are found at
  the target cell. Otherwise Java's `get` on `null` throws.
- `s.blockSize > 0`: Java divides by it.
- `|s.resources| > 0` (`RandomAgentModel.RandomAgent.Act`): the debug line
  of RandomAgent.java:131 prints element `[0]` of the resource array
  without a guard. On a state with no resource type it throws after the
  state was recorded (line 119) and before any action is recorded.
- `isGameOverDetected ==> |gamePredicates| > 0`: the removal of the last
  state needs one.

### Engine, I/O, randomness and time

- `CellBasedAgentModel.CellBasedRandomAgent.Act` takes the simulated next
  states as the parameter `futures`, `NUM_SIMULATIONS` of them.
  `futures[0]` is the state the ledger and the action are computed from.
  The re-simulation after the last check is not observed and is not
  modelled.
- `RandomAgentModel.RandomAgent.Act` takes its one predicted state as a
  parameter.
- The random choice of the action is not modelled: the drawn action is a
  parameter.
- Timers are not modelled.
- The iteration order of a `HashSet` of sprite keys is the parameter
  `enumerate`. The `HashMap` key order of the ledger is `ResourceLedger.keys`.
- `setGameConfigFile` and the YAML loading of `GameInformation` are not
  part of this model. The loaded configuration is a value of type
  `GameInformation`.
- `displayPostGameInformation`'s printing is not part of this model. Only
  its line formats are modelled, as `TaskLine` and `StateLine`.
- The text printed by the debug `println` in `RandomAgent.act` is not part
  of this model. Its throw on a state with no resource type is excluded by a
  precondition (see above).
- A state with no resource type is an empty `resources` sequence. If the
  game engine returned `null` there instead, the Java loops at
  RandomAgent.java:498 and AbstractRandomAgent.java:399 would throw. The
  engine is not part of this model, and the model counts zero resources.
- `Test.java`, the game launcher, is not part of this model.
- Positions and orientations are integers. Java's `double` vectors are
  compared by exact equality, and the `(int)` cast is applied to a pixel
  position that the model takes to be integral already.
- `toUpperCase` is modelled on ASCII letters only.

### Agent features

- `NumericAgentModel.NumericRandomAgent`: only its constructor's variable
  extraction, its translation and its move-action routine are modelled.
  The Java class leaves `createResourcePredicates`, `createUseAction`,
  `createMovementAction` and `generateConnectionPredicates` abstract, so
  its `act` cannot run.
- `CellBasedRandomAgent.createMoveAction` is modelled
  (`Actions.CreateCellMoveAction`), but `act` never calls it: that call
  is commented out in the source.
- `CellBasedRandomAgent` keeps a second `connectionSet` field that shadows
  the base class's. It is modelled once, since both hold the same
  generated set.

### Where the model follows the code

- Connections are inserted in both directions (RandomAgent.java:330-374).
  A W×H map therefore makes 4WH − 2W − 2H insertions
  (`Adjacency.AllLinksCount`), hence at most that many connection atoms,
  and exactly that many when distinct links give distinct atoms
  (`Connections.ConnectionSetCount`).
- Negative ledger deltas are added unclamped (AbstractRandomAgent.java:391-392,
  `Ledger.ResourceLedger.UpdatePickedResources`).

### How the orders are specified

- `Seqs.Dedup` and `Connections.ConnectionSetOrder` fix the stored
  connection order as first-insertion order. This is the order of the
  Java `LinkedHashSet`.
- For the `HashSet` and `HashMap` fields, whose order is unspecified, the
  order is an input.
