# Halite bot decision core in Dafny

This project models the decision logic of a bot for the Halite game (four
players, 21x21 toroidal board, 400 steps). On each step the bot reads a
board snapshot and gives every one of its ships a move (NORTH, SOUTH, EAST,
WEST), CONVERT (become a shipyard) or nothing (mine). It gives every one of
its shipyards SPAWN (build a ship) or nothing. The repository holds several
revisions of the bot; the model covers five of them:

- `mod.py`, the most elaborate. `DecisionShip` keeps a weight table over
  the keys N, E, W, S, mine, convert and a placeholder 'None'. Rules add to
  the table and put keys on an elimination list. The rules are: converting,
  spreading out from own ships, fleeing from or attacking enemy ships,
  depositing at own yards, raiding enemy yards, and defending own yards.
  Each rule reads a survey (`grid`) of the cells up to ten moves away.
  `determine` then drops the eliminated keys and picks the heaviest one.
  `ShipyardDecisions` ranks the yards by a spawn tendency. `agent` plays the
  ships by descending cargo, then spawns.
- `agent_a.py`, `agent_b.py` and `current.py`, three versions of the
  smaller `Decesion_Ship` / `Decision_Ship`. Each one:
  - applies a few convert short-cuts;
  - deletes blocked moves (`first_stage`);
  - scores the four one-move cells of a four-ring survey (`grid_5`) with
    `weight_cell`, adding ring 2-4 cells in agent_a and agent_b;
  - mines when the ship's own cell is richer than every weight, or when no
    move is left and mining survived. When no move is left and a weaker
    enemy beside the ship also deleted mining, `self.moves['mine']` raises
    KeyError and ends the tick.
  Their `agent` functions share one spawn rule with different windows.
  `current.py` takes `weight_cell`'s factors from `ShipTendency`, which
  classifies the ship's surroundings (`get_grid_stat`, `LocateObject`,
  `count_moves`) and normalises three tendencies.
- `agent_c.py`. `check_cell_prop` rates the four neighbours. A ship leaves
  a direction out when its neighbour rates -1 or -2, and a -1 also stops it
  mining. Fixed spawn and convert fallbacks end the step.

Every module follows the source's own shape:
- Objects whose methods update their fields are classes:
  - `ShipDecision.DecisionShip`;
  - `ModYard.ShipyardDecisions`;
  - `RevisionShip.DecesionShip`;
  - `Tendency.LocateObject`;
  - `Tendency.ShipTendency`.
- Each class's methods are proved equal to pure functions:
  - `ShipRules` for `mod.py`'s decision;
  - `ModYard`'s functions for the shipyard ranking;
  - `Revisions` for the three small decisions;
  - `Tendency`'s functions for the tendency analysis.
- The properties are lemmas about those functions.
- The `agent` loops are methods over the board they thread. Each is proved
  equal to a fold (`ModAgent`, `RevisionAgent`, `AgentC`).

Modelling conventions:
- Cargo and banked halite are integers. Cell halite and every weight are
  exact reals.
- The board is a function from positions to cells. North is +y and east is
  +x. Each step wraps around the 21-cell sides.
- The game library's `Board.next()` replays the actions set so far and
  cannot be seen from this code. It is a parameter of each agent loop.
- The irrational powers are parameters:
  - `x ** 1.5` in get_away;
  - `step ** (step / (cargo + 10))` in agent_c.
- Python's `round` is a parameter. So is `random.choice`, given as a
  function that returns an index.
- Python dicts are `PyDict.Dict`: a key list in insertion order plus a map.
  This keeps the iteration order that `max`, `sorted` and `items()`
  depend on.

Where the code and its intent differ, the model follows the code, with two
exceptions, both listed under "## Left out":
- the crashing lines of current.py are modelled as intended;
- the log line at mod.py:570 adds numbers to a string and raises TypeError
  on every tick of mod.py's agent; logging is left out, so the model gives
  the actions of the loops after it.

It follows the code in these cases:
- `determine` in agent_a.py, agent_b.py and current.py raises KeyError
  'mine' (agent_a.py:34, agent_b.py:54, current.py:123) when every move and
  mining were deleted. The model raises it too, and the tick ends with it.
- `measure_distance` (mod.py:438-445) wraps on one side only, so it is not
  symmetric.
- `count_moves` (current.py:463-487) ignores the y wrap and can undercount.
- `LocateObject.surroundings` (current.py:53-59) stores the opponent
  shipyard table under "opp_ships".
- In agent_c.py, `board.next()` returns a new board. Only the actions set
  before the first replay, plus the fallbacks at agent_c.py:228-235, reach
  `me.next_actions`.
- In agent_c.py, a ship with no direction left that was not converting
  raises IndexError in `choose_between` (agent_c.py:196). That happens
  before the forced mining at agent_c.py:202-204.

## Model

| member | source | states |
|---|---|---|
| Distance.MeasureDistanceBounds | mod.py:438-445 | a cell is at distance 0 from itself; every distance is non-negative, at most \|dx\|+\|dy\|, and one of the four candidate sums |
| Distance.MeasureAgainstTorus | mod.py:438-445 | measure_distance never undershoots the true torus move count, and equals it exactly when on each axis the destination lies before the origin or at most half a board after it |
| Distance.MeasureAsymmetric | mod.py:438-445 | the measure is not symmetric: one column across the wrap measures 20 one way and 1 the other |
| Distance.CountMovesBounds | current.py:463-487 | count_moves from a point to itself is 0; every count is non-negative and at most \|dx\|+\|dy\| |
| Distance.CountMovesCappedByColumns | current.py:479-485 | since opt4 counts the wrapped x term twice, count_moves never exceeds twice that term, however far apart the rows are |
| Distance.CountMovesUndercounts | current.py:474-485 | from (20,0) to (0,10) count_moves says 2 although 11 moves are needed |
| Moves.KeyOfName | mod.py:29-34 | naming a key and reading the name back gives the key, and a string that names a key is that key's name |
| Moves.CommandIsShipCommand | mod.py:554 | every command a ship key maps to is NORTH, SOUTH, WEST, EAST or CONVERT |
| Moves.SpawnIsNoShipCommand | agent_b.py:197-203 | SPAWN is never a ship command |
| Survey.GridCell | mod.py:458-539 | every grid entry is keyed by its own letters and holds the cell its key's moves lead to, except the two mistyped paths 'SSSSSSEE' and 'EEEEEEEWWW', whose cells lie where their written paths lead |
| Survey.PathsSound | mod.py:473-537 | every key of the grid literal is bound to a path taking the same moves, apart from the two slips; for a key listed twice the later path is the one kept |
| Survey.GridDirsDistinct | mod.py:458-539 | the survey never lists the same key twice |
| Survey.GridDirsNonEmpty | mod.py:458-539 | every survey key is at least one move long |
| Survey.LetterInWord | agent_b.py:84 | a letter occurs in a survey key iff one of the key's runs goes that way, so `Dir in sub_Dir` tests the direction |
| Survey.SpellInjective | mod.py:458-539 | different keys spell different strings, so a survey keyed by words is keyed by the source's strings |
| Survey.WalkWord | mod.py:458-539 | following a key's moves one by one lands at the net displacement its letters give |
| Grid5.RingShape | agent_b.py:151-178 | ring k of grid_5 holds 4, 8, 8 and 4 cells for k = 1..4; every key is k letters long, keys are distinct, and each cell is the one the key's moves reach |
| Grid5.FlatShape | current.py:434-453 | current.py's flat grid_5 has 24 entries: first the one-move cells N, S, W, E, then only longer keys, each cell reached by its key's moves |
| Grid5.FirstRing | agent_b.py:168-169 | the one-move ring lists N, S, W, E in that order, each the neighbouring cell in its direction |
| Grid5.OuterLayered | agent_b.py:170-177 | rings 2 to 4 joined keep every key at the length of its ring |
| PyDict.FromPairsHas | mod.py:473-537 | a key is in a dict literal iff some pair names it, and its value comes from such a pair |
| PyDict.FromPairsLaterWins | mod.py:512-522 | a key repeated later in a dict literal takes the later value |
| PyDict.FirstMaxIsFirstMaximum | agent_b.py:49-50 | `max(d, key=d.get)` returns a key of greatest value, and every key listed before it has a strictly lower value |
| ShipRules.MiningHyper | mod.py:61-63 | MINING is at least 10 |
| ShipRules.DepositHyper | mod.py:65-69 | DEPOSIT is at least 5, and at least 5005 once the game is near its end |
| ShipRules.DirectionHyper | mod.py:71-76 | DIRECTION_ENCOURAGEMENT is positive exactly before step 400 and zero at step 400 |
| ShipRules.GetAwayHyper | mod.py:78-81 | GET_AWAY is at most -10 |
| ShipRules.AttackHyper | mod.py:83-88 | ATTACK_ENEMY_SHIP lies in (0, 100] |
| ShipRules.DistributionHyper | mod.py:90-92 | DISTRIBUTION lies in [-20, 0) |
| ShipRules.ClosestYardHyper | mod.py:94-96 | CLOSEST_SHIPYARD is at least 1 |
| ShipRules.ConversionHyper | mod.py:56 | CONVERSION lies in [5, 60] and is 5 exactly from six shipyards on |
| ShipRules.GetAwayTrend | mod.py:78-81 | more cargo never weakens GET_AWAY's push |
| ShipRules.AttackTrend | mod.py:83-88 | more cargo or a later step never raises ATTACK_ENEMY_SHIP |
| ShipRules.AddAccordingly | mod.py:116-138 | only N/S/E/W change, mine, convert and 'None' are untouched; N takes the N/S share when the key has an N, otherwise S when it has an S; likewise W before E; each receiving value/(len^2*count) |
| ShipRules.AddAccordinglyOneLetter | mod.py:116-138 | a one-letter key adds exactly the value to its own direction and nothing else |
| ShipRules.AddAccordinglyLinear | mod.py:116-138 | adding zero changes nothing, and two additions along one key equal one addition of their sum |
| ShipRules.AddAccordinglyCommutes | mod.py:116-138 | contributions along two keys can be added in either order |
| ShipRules.ClosestOf | mod.py:333-340 | no yard is picked iff there are none (distance then 0.99); a picked yard is a listed yard at its measured distance |
| ShipRules.ClosestIsNearest | mod.py:333-340 | the picked yard is at least as close as every own yard |
| ShipRules.ClosestIsFirst | mod.py:336-337 | every yard listed before the picked one is strictly farther: ties go to the first |
| ShipRules.WholeIsNotNoYard | mod.py:334-337 | no measured distance is mistaken for the 0.99 sentinel |
| ShipRules.EndScoreBounds | mod.py:342-352 | each opponent moves near_end's count by at most one, and the count equals the number of opponents when all are broke, shipless and poorer than the player |
| ShipRules.NearEndByOpponents | mod.py:342-352 | with fewer than two opponents only the step ends the game early; two broken opponents make it near its end at any step |
| ShipRules.WeightConvertRule | mod.py:140-160 | convert is eliminated iff bank plus cargo is under 500 or the ship stands on a shipyard; otherwise with no shipyard convert weighs 1e8; no other weight changes |
| ShipRules.GoToClosestHeads | mod.py:245-263 | the closest-yard push only raises moves heading towards the yard without wrapping, greater x east and greater y north |
| ShipRules.RaidDistanceZero | mod.py:287-294 | the yard a raid targets stands on the surveyed cell, so the raid condition always measures distance 0 |
| ShipRules.DealEnemyChoice | mod.py:219-225 | for a one-move enemy, mining is eliminated iff cargo exceeds the enemy's cargo plus a quarter of the path halite (get_away, which also eliminates the move); otherwise the ship attacks and nothing is eliminated |
| ShipRules.VisitEliminates | mod.py:213 | a one-move own ship eliminates its move; a one-move threatening enemy eliminates its move and mining; a one-move enemy yard that is not raided eliminates its move when cargo exceeds 100 |
| ShipRules.VisitEliminatesOnlyItself | mod.py:176-204 | one survey entry eliminates nothing except its own one-move key and mining |
| ShipRules.MeetShipEliminatesOnlyItself | mod.py:183-189 | the ship rules eliminate nothing except the entry's own one-move key and mining |
| ShipRules.MeetYardEliminatesOnlyItself | mod.py:190-195 | the shipyard rules eliminate nothing except the entry's own one-move key |
| ShipRules.Sweep | mod.py:176-204 | the weight_moves loop keeps the table full and never takes a key off the elimination list |
| ShipRules.YardPressureSign | mod.py:306-313 | an empty neighbourhood puts no pressure on a yard; one with only enemy ships puts positive pressure |
| ShipRules.YardDirLetters | mod.py:318-327 | the key to a yard has S iff the yard has greater y, N iff smaller y, E iff greater x, W iff smaller x, and is empty iff the ship is on the yard |
| ShipRules.DefendPullsTowardsYard | mod.py:315-331 | a yard pulls the ship only under positive pressure and when the ship is not on it, towards S for greater y and N for smaller y |
| ShipRules.VisitedMoving | mod.py:173-176 | every visited survey entry is a real move |
| ShipRules.AddCellBonus | mod.py:207 | the cell bonus raises mining and leaves every other weight and the elimination list alone |
| ShipRules.UnsetEliminated | mod.py:32 | the 'None' placeholder stays on the elimination list through weight_moves |
| ShipRules.ApplyEliminationSpec | mod.py:354-358 | no eliminated key survives, every other key keeps its weight, and eliminating again changes nothing |
| ShipRules.ChooseSpec | mod.py:98-114 | the choice is a surviving key of greatest weight not tied by an earlier key in the order N, E, W, S, mine, convert; mining when every key is eliminated |
| ShipRules.DetermineSpec | mod.py:98-114 | determine never picks 'None' or an eliminated key, falling back to mining only when every key is eliminated |
| ShipDecision.ClosestShipyard | mod.py:333-340 | the loop computes ClosestOf over the player's yards |
| ShipDecision.ComputeNearEnd | mod.py:342-352 | the counting loop computes near_end's verdict |
| ShipDecision.Pressure | mod.py:306-313 | the loop over a yard's survey computes its pressure sum |
| ShipDecision.KeyToYard | mod.py:318-327 | the built string is the E/W run for the x offset followed by the S/N run for the y offset |
| ShipDecision.DecisionShip.constructor | mod.py:16-46 | the object starts with the all-zero table, ['None'] eliminated and no current entry |
| ShipDecision.DecisionShip.AddAccordingly | mod.py:116-138 | the table becomes AddAccordingly of the old one along current['dir'] |
| ShipDecision.DecisionShip.WeightConvert | mod.py:140-160 | the table and elimination list become the weight_convert rule's result |
| ShipDecision.DecisionShip.GoToClosest | mod.py:245-263 | the table becomes GoToClosest of the old one |
| ShipDecision.DecisionShip.AttackShip | mod.py:265-268 | the table becomes the attack rule's result |
| ShipDecision.DecisionShip.GetAway | mod.py:227-243 | the table and elimination list become the get_away rule's result |
| ShipDecision.DecisionShip.Distribute | mod.py:210-217 | the table and elimination list become the distribute_ships rule's result |
| ShipDecision.DecisionShip.DealEnemy | mod.py:219-225 | the table and elimination list become DealEnemy's result |
| ShipDecision.DecisionShip.Deposit | mod.py:282-285 | the table becomes the deposit rule's result |
| ShipDecision.DecisionShip.AttackYard | mod.py:287-294 | the table and elimination list become the raid rule's result |
| ShipDecision.DecisionShip.Analyze | mod.py:302-331 | one yard's analysis equals Defend of the old table |
| ShipDecision.DecisionShip.ShipyardStatus | mod.py:296-300 | the loop over own yards equals ShipyardStatus |
| ShipDecision.DecisionShip.Visit | mod.py:176-204 | one loop pass equals Visit and records the entry as current |
| ShipDecision.DecisionShip.SweepEntries | mod.py:176-204 | the loop equals Sweep over the entries |
| ShipDecision.DecisionShip.Prelude | mod.py:165-169 | the start of weight_moves equals Prelude |
| ShipDecision.DecisionShip.WeightMoves | mod.py:162-208 | from a fresh object, weight_moves leaves exactly WeightMoves(ctx) |
| ShipDecision.DecisionShip.CellBonus | mod.py:207 | the mining weight rises by the cell bonus |
| ShipDecision.DecisionShip.Round | mod.py:360-367 | the six move weights are rounded, 'None' is not |
| ShipDecision.DecisionShip.ApplyElimination | mod.py:354-358 | the deletion loop equals ApplyElimination of the old table |
| ShipDecision.DecisionShip.Determine | mod.py:98-114 | the command and key returned are those the spec picks, never 'None' nor an eliminated move except the mining fallback |
| Sorting.SortDescSorted | mod.py:386-387 | sorted(..., reverse=True) yields descending key order |
| Sorting.SortDescPermutes | mod.py:386-387 | the sorted list holds exactly the input's elements |
| Sorting.SortDescStable | mod.py:386-387 | elements sharing a key keep their input order |
| ModYard.YardWeightCases | mod.py:407-436 | weight is 100 with no own ships, 100 before step 50 with at least 500 banked, and the survey sum otherwise |
| ModYard.CellTendencySigns | mod.py:419-434 | an own ship alone pushes against spawning, an enemy ship or own yard pulls towards it, an empty cell gives nothing, a weak enemy next to the yard outweighs the rest |
| ModYard.SurveyScoreSigns | mod.py:419-434 | with no ship in the survey the sum is non-negative; with only own ships and no own yard it is non-positive |
| ModYard.TendenciesOfFreeYards | mod.py:398-405 | an id gets a tendency iff it is a listed yard whose cell holds no ship, and its tendency is that yard's weight |
| ModYard.ChosenFrom | mod.py:390-393 | nothing is chosen below 500 halite; every chosen id has tendency above 5; the chosen ids follow the items' order |
| ModYard.ChosenHas | mod.py:390-393 | with at least 500 halite every item whose tendency exceeds 5 has its id chosen |
| ModYard.ChosenDescending | mod.py:386-393 | from items in descending tendency order, the chosen ids come out in descending tendency order |
| ModYard.RankedChoice | mod.py:384-396 | determine returns exactly the ids whose tendency exceeds 5 when at least 500 halite is banked, and none below 500; highest tendency first |
| ModYard.SpawnsSpec | mod.py:384-418 | no spawn below 500 halite; every spawning yard is the player's, its cell holds no ship and its tendency exceeds 5; with 500 halite every such yard spawns; strongest first |
| ModYard.ShipyardDecisions.Weight | mod.py:407-436 | the loop computes the yard weight of the spec |
| ModYard.ShipyardDecisions.WeightShipyardTendencies | mod.py:398-405 | the loop leaves the tendency table the spec describes |
| ModYard.ShipyardDecisions.Determine | mod.py:384-396 | determine returns the spec's ranked choice |
| ModAgent.QueueSpec | mod.py:564 | every own ship is queued once, by descending cargo, ties in board order |
| ModAgent.Decide | mod.py:575 | the move a ship's decision picks is never the 'None' placeholder |
| ModAgent.TurnSpec | mod.py:573-581 | one pass either changes nothing or gives the deciding ship a move or CONVERT and leaves every other action alone |
| ModAgent.ShipTurnsSpec | mod.py:572-581 | every ship action belongs to a queued id and is a move or CONVERT; with no action the board is the tick's own |
| ModAgent.YardTurnsSpec | mod.py:585-589 | a listed yard named by determine gets SPAWN; every other id keeps its action |
| ModAgent.ActionsSpec | mod.py:558-591 | SPAWN exactly for the yards the shipyard decision names on the board after the ship moves; any other action is a move or CONVERT of an own ship |
| ModAgent.SpawnOnlyWhenStrong | mod.py:583-589 | a yard gets SPAWN only with at least 500 halite banked, no ship on it and tendency above 5 (on the board after the ship moves) |
| ModAgent.SpawnWhenStrong | mod.py:583-589 | conversely, with at least 500 halite banked every yard with no ship on it and tendency above 5 gets SPAWN (on the board after the ship moves) |
| ModAgent.ShipTurn | mod.py:573-581 | one pass equals the spec's Turn |
| ModAgent.ShipLoop | mod.py:572-581 | the ship loop equals ShipTurns |
| ModAgent.YardLoop | mod.py:585-589 | the shipyard loop equals YardTurns |
| ModAgent.Agent | mod.py:558-591 | agent returns the actions of the spec fold |
| Revisions.SettingOf | agent_b.py:13-25 | a ship on the board gets a well-formed grid_5 survey whose first ring is keyed N, S, W, E |
| Revisions.NearEndSpec | agent_a.py:126-133 | near_end holds iff at least two opponents are stranded: under 500 halite, no ships, and poorer than the player |
| Revisions.FirstStageSpec | agent_b.py:91-121 | a move survives first_stage iff it was there, no blocked neighbour is keyed by it, and, for mine, no weaker enemy is adjacent |
| Revisions.SurvivorsSpec | agent_a.py:69-98 | a direction survives iff its neighbour holds neither an own ship nor a weaker enemy; mine survives iff no neighbour is a weaker enemy; convert always survives |
| Revisions.CellScoreCases | agent_b.py:123-149 | an empty cell scores its halite less the ship cell's halite plus 2; an own ship subtracts ten times its cargo, an enemy ship adds 8 times the cargo difference, an own yard adds the defensive factor times (cargo+10), an enemy yard the raid factor over one more than its owner's yard count |
| Revisions.TabulateSpec | agent_b.py:75-79 | the weighting loop lists the kept keys in order, each with its own entry's score |
| Revisions.WeightsSpec | agent_b.py:64-89 | weight_moves keys the surviving directions in the order N, S, W, E; agent_a and agent_b weight each by its neighbour plus the ring 2-4 cells whose key holds its letter, current.py by its neighbour alone |
| Revisions.RingSumIsToward | agent_b.py:81-85 | `Dir in sub_Dir` picks exactly the ring 2-4 cells whose path steps in that direction |
| Revisions.InnerNever | current.py:162-164 | the inner condition of current.py's weight_moves never holds, so it adds nothing |
| Revisions.FlatOne | current.py:155-158 | current.py's flat grid starts with the four one-move cells and every later key is longer than one letter |
| Revisions.ChooseSpec | agent_b.py:46-61 | KeyError 'mine' exactly when no weight is left and mining was deleted; mining iff mining survived and either no weight is left or the ship's cell is richer than every weight; otherwise the first key of greatest weight |
| Revisions.DetermineSpec | agent_b.py:28-61 | convert exactly when a revision's convert rule fires (no yards; late step or near end with enough cargo; cargo over the cap); otherwise KeyError 'mine', mine or the best surviving direction as ChooseSpec says |
| Revisions.RaisesSpec | agent_b.py:50-54 | determine raises KeyError 'mine' exactly when no convert rule fires, first_stage (agent_b.py:91-121) blocks all four neighbours, and one of them holds an enemy ship carrying less |
| RevisionShip.AddRing | agent_b.py:81-85 | the inner loops add RingSum of the ring 2-4 cells to weights[d] |
| RevisionShip.DecesionShip.constructor | agent_b.py:13-25 | the setting is SettingOf the arguments and every move is present |
| RevisionShip.DecesionShip.NearEnd | agent_a.py:126-133 | the counting loop computes near_end |
| RevisionShip.DecesionShip.FirstStage | agent_b.py:91-121 | the deletions never miss a key and leave the moves the spec describes |
| RevisionShip.DecesionShip.RingWeights | agent_a.py:42-66 | the nested loops build the agent_a/agent_b weights of the spec |
| RevisionShip.DecesionShip.FlatWeights | current.py:141-167 | current.py's loops build the weights of its neighbours alone |
| RevisionShip.DecesionShip.WeightMoves | agent_b.py:64-89 | first_stage then the revision's weighting equal the spec |
| RevisionShip.DecesionShip.ConvertNow | current.py:92-109 | the short-circuits fire exactly when the revision's convert rule does |
| RevisionShip.DecesionShip.Determine | current.py:92-128 | the verdict is the spec's (a key, or KeyError 'mine' at current.py:123); a key's action is the key's command, and a KeyError gives none |
| Tendency.GridStatSpec | current.py:408-431 | every grid entry lands in exactly one list; each list's length counts its kind; the lengths add up to the number of entries |
| Tendency.ShipFirst | current.py:417-423 | a ship on a cell takes precedence over a shipyard under it |
| Tendency.GetGridStat | current.py:408-431 | the loop fills the five lists as the spec's fold |
| Tendency.Split | current.py:19-51 | the own and opponent tables only ever hold count_moves distances |
| Tendency.SplitSpec | current.py:19-51 | an id is in the own table iff an own object other than the subject carries it, in the opponent table iff such an object is not own, with its count_moves distance |
| Tendency.SplitNone | current.py:19-51 | only ids of listed objects reach the tables |
| Tendency.LocateObject.LocateYards | current.py:19-34 | the loop fills the own and opponent shipyard tables |
| Tendency.LocateObject.LocateShips | current.py:36-51 | the loop fills the own and opponent ship tables |
| Tendency.LocateObject.Surroundings | current.py:53-59 | surroundings returns the own ship and yard tables and, under "opp_ships", the opponent shipyard table |
| Tendency.BaseBounds | current.py:287-312 | from zero, base_analysis leaves defensive in [6, 32], offensive in [5, 19], mine at most 16, none negative; mine stays zero exactly when the grid has no own yard and no more own ships than enemy ones |
| Tendency.InverseBounds | current.py:327-330 | each `c / abs(distance + 1)` term is non-negative and at most c, so a table adds between 0 and c times its size |
| Tendency.YardPassGrows | current.py:315-333 | analyze_yard_stat never lowers defensive or offensive and leaves mine alone |
| Tendency.ShipPassGrows | current.py:336-363 | analyze_ship_stat never lowers defensive or offensive and leaves mine alone |
| Tendency.ScaledSpec | current.py:367-373 | scaling non-negative tendencies with a positive sum gives three values in [0, 1] adding up to 1, each positive exactly when it was positive before |
| Tendency.AnalysedSpec | current.py:376-383 | before scaling defensive is at least 6, offensive at least 5, nothing is negative, so scale never divides by zero; mine is base_analysis's |
| Tendency.Tended | current.py:376-391 | tend's three values lie in [0, 1] and add up to 1; defensive and offensive are positive; mine is zero exactly when the ship's grid has no own yard and no more own ships than enemy ones |
| Tendency.ShipTendency.constructor | current.py:267-284 | the object holds the ship's grid_5 and its grid stat, with all three tendencies zero |
| Tendency.ShipTendency.BaseAnalysis | current.py:287-312 | the fields become base_analysis of the grid stat |
| Tendency.ShipTendency.AnalyzeYardStat | current.py:315-333 | the loop over own yards equals the spec's pass |
| Tendency.ShipTendency.AnalyzeShipStat | current.py:336-363 | the loop over the other own ships equals the spec's pass |
| Tendency.ShipTendency.Scale | current.py:367-373 | each field is divided by the old sum |
| Tendency.ShipTendency.Tend | current.py:376-391 | tend on a fresh object returns the scaled tendencies of the spec |
| RevisionAgent.HyperOf | agent_b.py:123-149 | weight_cell's enemy-ship, own-yard and enemy-yard factors are 8, 7 and 10 in agent_a and agent_b; in current.py tend's offensive and defensive, within [0, 1], offensive also weighing enemy yards |
| RevisionAgent.ActionIsShipCommand | agent_b.py:254-255 | whatever a ship's decision sends is a ship command |
| RevisionAgent.ShipPassRaised | agent_b.py:252-257 | once the ship loop raises KeyError, the whole loop raises the same |
| RevisionAgent.ShipPassSpec | agent_b.py:252-257 | every action the ship loop sets belongs to a listed ship and is a move or CONVERT |
| RevisionAgent.SpawnRuleWindow | agent_a.py:235-245 | agent_b and current.py spawn alike; agent_a spawns whenever they do and, in addition, exactly on steps 100 to 149 with remainder 1 modulo 3 while ships remain |
| RevisionAgent.YardPassSpec | agent_b.py:260-272 | the yard loop keeps every action it finds; any key it adds is a listed yard told to SPAWN, before step 392 and under the spawn rule |
| RevisionAgent.TickOutcomeSpec | agent_b.py:242-274 | every returned SPAWN is for an own shipyard, before step 392 and under the spawn rule; every other returned action is a move or CONVERT of an own ship |
| RevisionAgent.ShipTurn | agent_b.py:252-257 | one pass equals the spec's ShipStep, raising KeyError for a missing ship id or for determine's 'mine' |
| RevisionAgent.ShipStepRaisesMine | agent_b.py:252-257 | a ship's pass raises KeyError 'mine' exactly when RaisesSpec's condition holds on its setting |
| RevisionAgent.TickRaisesMine | agent_b.py:250-257 | when the first ship's determine raises KeyError 'mine', the whole tick raises it |
| RevisionAgent.ShipLoop | agent_a.py:226-232 | the ship loop equals ShipPass, including the KeyError 'mine' of agent_a.py:34 that ends it |
| RevisionAgent.YardTurn | current.py:513-525 | one pass equals the spec's YardStep |
| RevisionAgent.YardLoop | agent_b.py:260-272 | the shipyard loop equals YardPass |
| RevisionAgent.Agent | current.py:496-527 | agent returns the actions of the spec fold, or raises its KeyError (a missing ship id, or 'mine' at current.py:123) |
| AgentC.CheckCellPropSpec | agent_c.py:65-96 | every rating is -2, -1 or non-negative; -1 exactly for an enemy ship carrying at least our cargo; -2 exactly for an own ship or, on a shipless cell, an enemy yard not worth raiding |
| AgentC.ShipBeforeYard | agent_c.py:72-82 | a ship on the cell decides the rating; a shipyard under it is not looked at |
| AgentC.NomineesSpec | agent_c.py:168-175 | a direction stays a nominee iff its neighbour rates neither -1 nor -2; nominees keep N, S, W, E order without repeats |
| AgentC.ThreatenedSpec | agent_c.py:168-175 | mining is switched off by the filter iff some neighbour rates -1 |
| AgentC.ShipChoiceSpec | agent_c.py:147-206 | mines iff allowed and unthreatened, or converting with every direction blocked; converts iff converting with an open direction; raises iff not converting with nothing open; else picks among the nominees |
| AgentC.ForcedMine | agent_c.py:202-204 | the forced mining is reached only by a converting ship; any other ship raises IndexError first |
| AgentC.DecideShip | agent_c.py:147-206 | the ship's body returns the spec's choice; its best_move scan keeps val and best_move as Top and Maxima say |
| AgentC.TopSpec | agent_c.py:186-192 | val after the scan is the largest of -1e8 and the scanned properties |
| AgentC.MaximaScanned | agent_c.py:186-192 | best_move holds scanned nominees only |
| AgentC.MaximaEmpty | agent_c.py:186-192 | best_move is empty exactly when no scanned property reaches -1e8 |
| AgentC.MaximaLast | agent_c.py:186-192 | best_move's last entry carries the largest scanned property |
| AgentC.Filter | agent_c.py:169-175 | the filter loop leaves the spec's nominees and mine flag |
| AgentC.ShipPassesSpec | agent_c.py:141-209 | after the first ship the board is never the tick's own again, and only the first ship's action is kept |
| AgentC.YardPassesSpec | agent_c.py:212-224 | the yard loop keeps every action; it adds SPAWN only for a listed yard under the spawn rule, while the board is still the tick's own |
| AgentC.AgentSpec | agent_c.py:127-237 | the result holds the first ship's move or CONVERT; SPAWN for a yard only when the player has no ships; CONVERT for the middle ship only when the player has no yards |
| AgentC.FallbackSpec | agent_c.py:228-235 | with no ships and some yard the first yard spawns unless it is step 399; with no yards and some ship the middle ship converts |
| AgentC.FirstShipFound | agent_c.py:143 | the first ship is looked up on the tick's own board, so its lookup never raises KeyError |
| AgentC.ShipStep | agent_c.py:143-209 | one pass equals the spec's ShipPass |
| AgentC.YardStep | agent_c.py:212-224 | one pass equals the spec's YardPass |
| AgentC.RunAgent | agent_c.py:127-237 | agent returns the spec's outcome |

## Left out

- Logging is not modelled: `log` writes to a file. The agent loops are
  modelled without their log lines.
- ModAgent.Agent: as written, mod.py:570 raises TypeError on every tick,
  since it adds the player's halite and counts to strings; the model
  leaves the log line out and gives the actions of the loops after it.
- The game library is outside the model: the `Board` object, `Board.next()`,
  the cell neighbours and the action enums. The board is a snapshot value.
  `next` is a parameter of every agent loop. The neighbours are the wrapped
  unit steps of `Board.Step`.
- Randomness is not modelled. `randomize` is not part of this model; its
  undefined `exclude` would raise NameError. For agent_c's
  `choose_between`, the index it picks is a parameter.
- Irrational powers and rounding are parameters, not computed:
  `cargo_diff ** 1.5`, `step ** (step / (cargo + 10))` and Python's `round`.
  `sigmoid` (current.py:455-459) is used nowhere in the core and is not part
  of this model.
- Ship-decision helpers that nothing in the core reaches are not part of
  this model: agent_c's `weight_cell` and `heat_map`, and `get_neighbors`.
- agent_c.py:54-63 (`basic_moves`) is not part of this model. It reads an
  undefined `directions` and is never called.
- agent_c.py:198-200 is not modelled: it tests `len(best_move) == 0` after
  `len(best_move) != 1` failed, so it never runs. The best_move scan is
  modelled, and it never changes the outcome.
- current.py's broken lines are modelled as intended. As written, each of
  them raises:
  - `grid[1]` at current.py:177 reads the flat grid's one-move cells;
  - the missing player argument at current.py:276 is the ship's owner;
  - at current.py:27-28 and 44-45, `board.shipyards` and `board.ships` are
    dicts keyed by id, so the loops get id strings and `.id` raises
    AttributeError; the model iterates the shipyards and ships themselves;
  - the undefined `board` at current.py:324 and 347 is `self.board`;
  - at current.py:322-324 and 345-347 the loops pass the ids of the
    surroundings tables to LocateObject, whose `obj.player` would raise
    AttributeError; the model passes the own yards and ships themselves;
  - the missing 'opp_yards' key at current.py:358 is the opponent shipyard
    table.
- Tendency.LocateObject.LocateYards: does not model the AttributeError that
  current.py:27-28 raises on the first shipyard; it returns the intended
  own and opponent tables.
- Tendency.LocateObject.LocateShips: does not model the AttributeError that
  current.py:44-45 raises on the first ship; it returns the intended own
  and opponent tables.
- Tendency.LocateObject.Surroundings: calls the intended LocateShips, so it
  does not model the AttributeError that current.py:56 raises through
  locate_ships whenever the board holds a ship.
- Tendency.ShipTendency.constructor: current.py:279 raises AttributeError
  through LocateObject.surroundings for every ship, because the deciding
  ship itself is on the board; the model builds the intended tables.
- Tendency.ShipTendency.AnalyzeYardStat and
  Tendency.ShipTendency.AnalyzeShipStat visit the own yards and the other
  own ships themselves, in the player's list order. As written, the source
  raises at current.py:324 and 347 and computes no sum.
- RevisionAgent.Agent: as written, current.py's agent raises AttributeError
  on every tick on which the player has a ship (through Decision_Ship's
  ShipTendency at current.py:89). For current.py the model gives the
  actions the intended code would return.
- The stubs are not part of this model, because they compute nothing:
  - `basic_self_move`, `basic_enemy_move`;
  - current.py's `weight_mining` and `weight_convert`;
  - `Decision_shipyard`, `ShipyardTendency`, `WeightTendency`;
  - agent_b's `near_end`.
- submission.py is not part of this model: it always moves NORTH.
- RevisionShip.AddRing sums a direction's ring 2-4 increments first and adds
  them to weights[d] once. The result is the same real number as the
  source's repeated `+=`.
- RevisionAgent.Agent and RevisionAgent.Decide require every ship on the
  board, and every replayed board, to stand on the 21x21 grid. The game
  library guarantees this, and the grid_5 shape proofs need it.
- AgentC.RunAgent takes `step ** (step / (cargo + 10))` as a given function.
  Its convert threshold is stated for whatever that function returns.
- mod.py's `go_to_closest_shipyard` sends greater y north while
  `analyze_shipyard_surroundings` sends it south, and neither wraps. Each is
  modelled as written.
