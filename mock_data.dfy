/**
 * The demo-data generator of src/lib/mockData.ts: a walk over the calendar
 * that records a workout on Mondays, Wednesdays, Fridays and some Saturdays,
 * cycling through four workout plans and moving each machine's weight up or
 * down according to how the previous set felt; the result is sorted newest
 * first. `getMockDataStats` summarises a list of sessions.
 *
 * The walk's days (their date string, weekday and progress through the
 * period) are a parameter, as are `Math.random()` and `crypto.randomUUID()`:
 * `rand(n)` is the n-th number `Math.random()` returns and `uuid(n)` the
 * n-th identifier, consumed in the order the code calls them.
 */
module MockData {
  import opened Wrappers
  import opened Types
  import opened IdLists

  /** A catalogue machine: its name, category and the weight the walk starts it at. */
  datatype Machine = Machine(name: string, category: Category, startWeight: real)

  /** `machines`. */
  function Machines(): seq<Machine>
  {
    [ Machine("Leg Press", Legs, 60.0),
      Machine("Leg Curl", Legs, 25.0),
      Machine("Leg Extension", Legs, 30.0),
      Machine("Lat Pulldown", Back, 35.0),
      Machine("Seated Row", Back, 40.0),
      Machine("Chest Press", Chest, 30.0),
      Machine("Pec Fly", Chest, 25.0),
      Machine("Shoulder Press", Shoulders, 20.0),
      Machine("Lateral Raise", Shoulders, 8.0),
      Machine("Bicep Curl", Arms, 10.0),
      Machine("Tricep Pushdown", Arms, 20.0),
      Machine("Cable Crunch", Core, 30.0) ]
  }

  function MachineName(m: Machine): string
  {
    m.name
  }

  /** The position of the catalogue machine called `name`, -1 for any other name. */
  function MachineIndex(name: string): int
  {
    match name
    case "Leg Press" => 0
    case "Leg Curl" => 1
    case "Leg Extension" => 2
    case "Lat Pulldown" => 3
    case "Seated Row" => 4
    case "Chest Press" => 5
    case "Pec Fly" => 6
    case "Shoulder Press" => 7
    case "Lateral Raise" => 8
    case "Bicep Curl" => 9
    case "Tricep Pushdown" => 10
    case "Cable Crunch" => 11
    case _ => -1
  }

  /** Every catalogue machine is at the position its name leads to. */
  lemma MachinesIndexed()
    ensures |Machines()| == 12
    ensures forall i :: 0 <= i < |Machines()| ==> MachineIndex(Machines()[i].name) == i
  {
  }

  /** No two catalogue machines share a name. */
  lemma MachineNamesUnique()
    ensures UniqueIds(Machines(), MachineName)
  {
    MachinesIndexed();
    forall i, j | 0 <= i < |Machines()| && 0 <= j < |Machines()| && MachineName(Machines()[i]) == MachineName(Machines()[j])
      ensures i == j
    {
      assert MachineIndex(Machines()[i].name) == i && MachineIndex(Machines()[j].name) == j;
    }
  }

  /** `machines.find((m) => m.name === name)`, in the catalogue `machines`. */
  function Lookup(machines: seq<Machine>, name: string): Option<Machine>
  {
    FindId(machines, MachineName, name)
  }

  /** With unique names, looking a machine up by its name finds that machine. */
  lemma LookupAt(machines: seq<Machine>, i: nat)
    requires UniqueIds(machines, MachineName) && i < |machines|
    ensures Lookup(machines, machines[i].name) == Some(machines[i])
  {
    var r := Lookup(machines, machines[i].name);
    assert MachineName(machines[i]) == machines[i].name;
    var j :| 0 <= j < |machines| && machines[j] == r.value && MachineName(machines[j]) == machines[i].name;
    assert j == i;
  }

  /** A workout plan: a name and the machines it uses, in order. */
  datatype Plan = Plan(name: string, machines: seq<string>)

  /** `workoutTemplates`. */
  function Plans(): seq<Plan>
  {
    [ Plan("legs", ["Leg Press", "Leg Curl", "Leg Extension"]),
      Plan("push", ["Chest Press", "Pec Fly", "Shoulder Press", "Tricep Pushdown"]),
      Plan("pull", ["Lat Pulldown", "Seated Row", "Bicep Curl"]),
      Plan("upper", ["Chest Press", "Lat Pulldown", "Shoulder Press", "Bicep Curl", "Tricep Pushdown"]) ]
  }

  /** Machine weights by name (`currentWeights`). */
  type Weights = map<string, real>

  /** Every machine of the catalogue has a weight. */
  ghost predicate HasCatalogue(machines: seq<Machine>, w: Weights)
  {
    forall i :: 0 <= i < |machines| ==> machines[i].name in w
  }

  /** Every weight belongs to a catalogue machine and is at least that machine's start weight. */
  ghost predicate AtLeastStart(machines: seq<Machine>, w: Weights)
  {
    forall name :: name in w ==> Lookup(machines, name).Some? && w[name] >= Lookup(machines, name).value.startWeight
  }

  /** `starts` holds each catalogue machine's start weight, under its name. */
  ghost predicate StartWeights(machines: seq<Machine>, starts: Weights)
  {
    forall name :: name in starts ==> Lookup(machines, name).Some? && starts[name] == Lookup(machines, name).value.startWeight
  }

  /** The weights are those of the machines in `starts`, none below its start weight. */
  predicate AtLeast(starts: Weights, w: Weights)
  {
    w.Keys == starts.Keys && forall name :: name in w ==> w[name] >= starts[name]
  }

  /** Weights at or above the start weights are at or above the catalogue's start weights. */
  lemma AtLeastStartFromStarts(machines: seq<Machine>, starts: Weights, w: Weights)
    requires StartWeights(machines, starts) && AtLeast(starts, w)
    ensures AtLeastStart(machines, w)
  {
  }

  /** Every machine of the plan is in the catalogue. */
  ghost predicate PlanCovered(machines: seq<Machine>, plan: Plan)
  {
    forall k :: 0 <= k < |plan.machines| ==> Lookup(machines, plan.machines[k]).Some?
  }

  /** Every machine of every plan is in the catalogue. */
  ghost predicate PlansCovered(machines: seq<Machine>, plans: seq<Plan>)
  {
    forall p :: 0 <= p < |plans| ==> PlanCovered(machines, plans[p])
  }

  /** The catalogue has the Cable Crunch machine, in category Core. */
  predicate HasCoreMachine(machines: seq<Machine>)
  {
    Lookup(machines, "Cable Crunch").Some? && Lookup(machines, "Cable Crunch").value.category == Core
  }

  /** A machine the catalogue has, has a weight. */
  lemma FoundHasWeight(machines: seq<Machine>, w: Weights, name: string)
    requires HasCatalogue(machines, w) && Lookup(machines, name).Some?
    ensures name in w
  {
    var i :| 0 <= i < |machines| && machines[i] == Lookup(machines, name).value && MachineName(machines[i]) == name;
  }

  /** A plan whose k-th machine is the catalogue's machine `idx[k]` uses only catalogue machines. */
  lemma CoveredAt(machines: seq<Machine>, plan: Plan, idx: seq<nat>)
    requires |idx| == |plan.machines|
    requires forall k :: 0 <= k < |idx| ==> idx[k] < |machines| && machines[idx[k]].name == plan.machines[k]
    ensures PlanCovered(machines, plan)
  {
    forall k | 0 <= k < |plan.machines| ensures Lookup(machines, plan.machines[k]).Some? {
      assert MachineName(machines[idx[k]]) == plan.machines[k];
    }
  }

  lemma LegsCovered()
    ensures PlanCovered(Machines(), Plans()[0])
  {
    var m, names := Machines(), Plans()[0].machines;
    assert m[0].name == names[0] && m[1].name == names[1] && m[2].name == names[2];
    CoveredAt(m, Plans()[0], [0, 1, 2]);
  }

  lemma PushCovered()
    ensures PlanCovered(Machines(), Plans()[1])
  {
    var m, names := Machines(), Plans()[1].machines;
    assert m[5].name == names[0] && m[6].name == names[1] && m[7].name == names[2] && m[10].name == names[3];
    CoveredAt(m, Plans()[1], [5, 6, 7, 10]);
  }

  lemma PullCovered()
    ensures PlanCovered(Machines(), Plans()[2])
  {
    var m, names := Machines(), Plans()[2].machines;
    assert m[3].name == names[0] && m[4].name == names[1] && m[9].name == names[2];
    CoveredAt(m, Plans()[2], [3, 4, 9]);
  }

  lemma UpperCovered()
    ensures PlanCovered(Machines(), Plans()[3])
  {
    var m, names := Machines(), Plans()[3].machines;
    assert m[5].name == names[0] && m[3].name == names[1] && m[7].name == names[2] && m[9].name == names[3] && m[10].name == names[4];
    CoveredAt(m, Plans()[3], [5, 3, 7, 9, 10]);
  }

  /** The catalogue has the Cable Crunch machine, in category Core. */
  lemma CoreInCatalogue()
    ensures HasCoreMachine(Machines())
  {
    var m := Machines();
    MachineNamesUnique();
    LookupAt(m, 11);
    assert m[11].name == "Cable Crunch" && m[11].category == Core;
  }

  /** Four plans, each using only catalogue machines. */
  lemma FourCovered(machines: seq<Machine>, plans: seq<Plan>)
    requires |plans| == 4
    requires PlanCovered(machines, plans[0]) && PlanCovered(machines, plans[1])
    requires PlanCovered(machines, plans[2]) && PlanCovered(machines, plans[3])
    ensures PlansCovered(machines, plans)
  {
    forall p | 0 <= p < |plans| ensures PlanCovered(machines, plans[p]) {
      if p == 0 {
      } else if p == 1 {
      } else if p == 2 {
      } else {
        assert p == 3;
      }
    }
  }

  /** The catalogue's names are unique, its plans use only its machines, and it has the Cable Crunch. */
  lemma CatalogueFacts()
    ensures |Plans()| == 4
    ensures UniqueIds(Machines(), MachineName)
    ensures PlansCovered(Machines(), Plans())
    ensures HasCoreMachine(Machines())
  {
    MachineNamesUnique();
    LegsCovered();
    PushCovered();
    PullCovered();
    UpperCovered();
    FourCovered(Machines(), Plans());
    CoreInCatalogue();
  }

  /** `machines.forEach((m) => { currentWeights[m.name] = m.startWeight; })`. */
  method InitialWeights(machines: seq<Machine>) returns (w: Weights)
    requires UniqueIds(machines, MachineName)
    ensures forall i :: 0 <= i < |machines| ==> machines[i].name in w && w[machines[i].name] == machines[i].startWeight
    ensures HasCatalogue(machines, w) && StartWeights(machines, w)
  {
    w := map[];
    for i := 0 to |machines|
      invariant forall k :: 0 <= k < i ==> machines[k].name in w && w[machines[k].name] == machines[k].startWeight
      invariant forall name :: name in w ==> exists k :: 0 <= k < i && machines[k].name == name
    {
      var m := machines[i];
      forall k | 0 <= k < i ensures machines[k].name != m.name {
        assert MachineName(machines[k]) != MachineName(machines[i]);
      }
      w := w[m.name := m.startWeight];
    }
    forall name | name in w ensures Lookup(machines, name).Some? && w[name] == Lookup(machines, name).value.startWeight {
      var k :| 0 <= k < |machines| && machines[k].name == name;
      LookupAt(machines, k);
    }
  }

  /** `randomFeeling(progressPercent)`, where `roll` is the number `Math.random()` returned. */
  function RandomFeeling(progress: real, roll: real): (f: Feeling)
    ensures roll < 0.1 ==> f == TooHard
    ensures roll >= 0.75 ==> f == TooEasy
  {
    if progress < 0.3 then
      if roll < 0.3 then TooHard else if roll < 0.7 then JustRight else TooEasy
    else if progress < 0.7 then
      if roll < 0.15 then TooHard else if roll < 0.75 then JustRight else TooEasy
    else
      if roll < 0.1 then TooHard else if roll < 0.5 then JustRight else TooEasy
  }

  /** How easy a feeling says the set was. */
  function Ease(f: Feeling): int
  {
    match f
    case TooHard => 0
    case JustRight => 1
    case TooEasy => 2
  }

  /** At any point of the period, a larger roll never gives a harder feeling. */
  lemma FeelingMonotone(progress: real, a: real, b: real)
    requires a <= b
    ensures Ease(RandomFeeling(progress, a)) <= Ease(RandomFeeling(progress, b))
  {
  }

  /** A roll that is "too hard" later in the period was "too hard" earlier too. */
  lemma TooHardShrinks(p: real, q: real, roll: real)
    requires p <= q && RandomFeeling(q, roll) == TooHard
    ensures RandomFeeling(p, roll) == TooHard
  {
  }

  /** Monday, Wednesday and Friday (`getDay()` 1, 3 and 5). */
  predicate FixedWorkoutDay(weekday: int)
  {
    weekday == 1 || weekday == 3 || weekday == 5
  }

  /** Sunday, Tuesday and Thursday (`getDay()` 0, 2 and 4). */
  predicate RestDay(weekday: int)
  {
    weekday == 0 || weekday == 2 || weekday == 4
  }

  /** `isWorkoutDay`, where `roll` is the number drawn on a Saturday. */
  function IsWorkoutDay(weekday: int, roll: real): bool
  {
    FixedWorkoutDay(weekday) || (weekday == 6 && roll > 0.5)
  }

  /** The weekday rule: three fixed days, three rest days, and Saturday on a roll above one half. */
  lemma WeekdayRule(weekday: int, roll: real)
    ensures FixedWorkoutDay(weekday) ==> IsWorkoutDay(weekday, roll)
    ensures RestDay(weekday) ==> !IsWorkoutDay(weekday, roll)
    ensures weekday == 6 ==> (IsWorkoutDay(weekday, roll) <==> roll > 0.5)
  {
  }

  /** `weight + (weight >= 50 ? 5 : 2.5)`. */
  function IncreaseWeight(w: real): (r: real)
    ensures w < r <= w + 5.0
  {
    w + (if w >= 50.0 then 5.0 else 2.5)
  }

  /** `Math.max(startWeight, weight - 2.5)`. */
  function DecreaseWeight(w: real, start: real): (r: real)
    ensures r >= start && r >= w - 2.5
    ensures r == start || r == w - 2.5
  {
    if start >= w - 2.5 then start else w - 2.5
  }

  /** The weight after a set with feeling `f`, where `roll` is the number drawn for the adjustment. */
  function AdjustWeight(f: Feeling, w: real, start: real, roll: real): real
  {
    if f == TooEasy && roll > 0.3 then IncreaseWeight(w)
    else if f == TooHard && roll > 0.7 then DecreaseWeight(w, start)
    else w
  }

  /**
   * An adjustment never takes a weight below the start weight; only an easy
   * set raises it and only a hard set lowers it.
   */
  lemma AdjustBounds(f: Feeling, w: real, start: real, roll: real)
    requires w >= start
    ensures AdjustWeight(f, w, start, roll) >= start
    ensures f != TooHard ==> AdjustWeight(f, w, start, roll) >= w
    ensures f != TooEasy ==> AdjustWeight(f, w, start, roll) <= w
  {
  }

  /** `Math.random() > 0.3 ? 3 : 4`. */
  function SetsFor(roll: real): (r: int)
    ensures r == 3 || r == 4
  {
    if roll > 0.3 then 3 else 4
  }

  /** `[8, 10, 12][Math.floor(Math.random() * 3)]`. */
  function RepsFor(roll: real): (r: int)
    requires 0.0 <= roll < 1.0
    ensures r == 8 || r == 10 || r == 12
  {
    [8, 10, 12][(roll * 3.0).Floor]
  }

  /**
   * A recorded exercise of a catalogue machine with that machine's category,
   * a weight not below its start weight, 3 or 4 sets and 8, 10, 12 or 15 reps.
   */
  ghost predicate GoodExercise(machines: seq<Machine>, e: Exercise)
  {
    && Lookup(machines, e.machine).Some?
    && e.category == Lookup(machines, e.machine).value.category
    && e.weight >= Lookup(machines, e.machine).value.startWeight
    && (e.sets == 3 || e.sets == 4)
    && (e.reps == 8 || e.reps == 10 || e.reps == 12 || e.reps == 15)
  }

  /** Every exercise of the session is a good one. */
  ghost predicate GoodSession(machines: seq<Machine>, s: WorkoutSession)
  {
    forall j :: 0 <= j < |s.exercises| ==> GoodExercise(machines, s.exercises[j])
  }

  /** The session follows plan `p`: its machines in order, then possibly one Cable Crunch. */
  predicate UsesPlan(s: WorkoutSession, p: Plan)
  {
    && |p.machines| <= |s.exercises| <= |p.machines| + 1
    && (forall j :: 0 <= j < |p.machines| ==> s.exercises[j].machine == p.machines[j])
    && (|s.exercises| > |p.machines| ==> s.exercises[|p.machines|].machine == "Cable Crunch")
  }

  /**
   * Exercise `j` is for the plan's machine `j`, has the `j`-th identifier
   * from position `nextId` on, and is a good one.
   */
  ghost predicate ExercisesFor(machines: seq<Machine>, plan: Plan, exercises: seq<Exercise>, uuid: nat -> string, nextId: nat)
    requires |exercises| <= |plan.machines|
  {
    forall j :: 0 <= j < |exercises| ==>
      && exercises[j].machine == plan.machines[j]
      && exercises[j].id == uuid(nextId + j)
      && GoodExercise(machines, exercises[j])
  }

  /** The exercise for the plan's next machine extends the exercises so far. */
  lemma ExercisesForAppend(machines: seq<Machine>, plan: Plan, exercises: seq<Exercise>, uuid: nat -> string, nextId: nat, e: Exercise)
    requires |exercises| < |plan.machines| && ExercisesFor(machines, plan, exercises, uuid, nextId)
    requires e.machine == plan.machines[|exercises|] && e.id == uuid(nextId + |exercises|) && GoodExercise(machines, e)
    ensures ExercisesFor(machines, plan, exercises + [e], uuid, nextId)
  {
  }

  /** Raising or lowering one machine's weight, not below its start weight, keeps the weights at or above the starts. */
  lemma AtLeastUpdate(starts: Weights, w: Weights, name: string, v: real)
    requires AtLeast(starts, w) && name in starts && v >= starts[name]
    ensures AtLeast(starts, w[name := v])
  {
  }

  /** The start weight recorded for a machine is its catalogue start weight. */
  lemma StartOf(machines: seq<Machine>, starts: Weights, name: string)
    requires StartWeights(machines, starts) && name in starts
    ensures Lookup(machines, name).Some? && Lookup(machines, name).value.startWeight == starts[name]
  {
  }

  /** How many numbers the generator draws for one plan exercise with feeling `f`: a fourth one decides the adjustment of an easy or a hard set. */
  function DrawsFor(f: Feeling): (r: nat)
    ensures r == 3 || r == 4
  {
    if f == TooEasy || f == TooHard then 4 else 3
  }

  /**
   * Exercise `e` for machine `name` is drawn from position `at` of `rand`:
   * its feeling, sets and reps come from the first three numbers and its
   * weight is the machine's current weight in `before`. The weights `after`
   * the set are `before` with the machine's weight adjusted by the fourth
   * number when the set was too easy or too hard, and `before` otherwise.
   */
  ghost predicate ExerciseDrawn(machines: seq<Machine>, name: string, progress: real, rand: nat -> real, at: nat,
                                before: Weights, after: Weights, e: Exercise)
  {
    && name in before && Lookup(machines, name).Some?
    && e.machine == name
    && e.category == Lookup(machines, name).value.category
    && e.weight == before[name]
    && e.feeling == RandomFeeling(progress, rand(at))
    && e.sets == SetsFor(rand(at + 1))
    && 0.0 <= rand(at + 2) < 1.0 && e.reps == RepsFor(rand(at + 2))
    && after == if e.feeling == JustRight then before
                else before[name := AdjustWeight(e.feeling, before[name], Lookup(machines, name).value.startWeight, rand(at + 3))]
  }

  /**
   * The exercises are drawn for the plan's machines one after the other:
   * exercise `j` is drawn from position `d[j]` with the weights `ws[j]`,
   * leaving the weights `ws[j + 1]` and the next number at `d[j + 1]`.
   */
  ghost predicate ExercisesDrawn(machines: seq<Machine>, plan: Plan, progress: real, rand: nat -> real,
                                 exercises: seq<Exercise>, d: seq<nat>, ws: seq<Weights>)
    requires |exercises| <= |plan.machines|
  {
    && |d| == |exercises| + 1 && |ws| == |exercises| + 1
    && forall j :: 0 <= j < |exercises| ==>
         && ExerciseDrawn(machines, plan.machines[j], progress, rand, d[j], ws[j], ws[j + 1], exercises[j])
         && d[j + 1] == d[j] + DrawsFor(exercises[j].feeling)
  }

  /** One more drawn exercise extends the exercises drawn so far. */
  lemma ExercisesDrawnAppend(machines: seq<Machine>, plan: Plan, progress: real, rand: nat -> real,
                             exercises: seq<Exercise>, d: seq<nat>, ws: seq<Weights>,
                             at: nat, before: Weights, e: Exercise, w: Weights)
    requires |exercises| < |plan.machines| && ExercisesDrawn(machines, plan, progress, rand, exercises, d, ws)
    requires at == d[|exercises|] && before == ws[|exercises|]
    requires ExerciseDrawn(machines, plan.machines[|exercises|], progress, rand, at, before, w, e)
    ensures ExercisesDrawn(machines, plan, progress, rand, exercises + [e], d + [at + DrawsFor(e.feeling)], ws + [w])
  {
    var k := |exercises|;
    var es, d', ws' := exercises + [e], d + [at + DrawsFor(e.feeling)], ws + [w];
    forall j | 0 <= j < |es|
      ensures ExerciseDrawn(machines, plan.machines[j], progress, rand, d'[j], ws'[j], ws'[j + 1], es[j])
      ensures d'[j + 1] == d'[j] + DrawsFor(es[j].feeling)
    {
      if j < k {
        assert es[j] == exercises[j] && d'[j] == d[j] && d'[j + 1] == d[j + 1] && ws'[j] == ws[j] && ws'[j + 1] == ws[j + 1];
      }
    }
  }

  /**
   * The exercises so far of `plan` were drawn one after the other from
   * position `next` and the weights `weights` on, with consecutive
   * identifiers from position `nextId`, and are good ones; the next number
   * is at position `after`, the next identifier at `afterId`, and the
   * weights now, `current`, are those after the last exercise, at or above
   * the start weights.
   */
  ghost predicate PlanDrawn(machines: seq<Machine>, starts: Weights, plan: Plan, progress: real, rand: nat -> real,
                            uuid: nat -> string, nextId: nat, next: nat, weights: Weights,
                            exercises: seq<Exercise>, d: seq<nat>, ws: seq<Weights>,
                            after: nat, afterId: nat, current: Weights)
  {
    && |exercises| <= |plan.machines|
    && ExercisesDrawn(machines, plan, progress, rand, exercises, d, ws)
    && ExercisesFor(machines, plan, exercises, uuid, nextId)
    && d[0] == next && ws[0] == weights
    && after == d[|exercises|] && current == ws[|exercises|] && AtLeast(starts, current)
    && after >= next && afterId == nextId + |exercises|
  }

  /** Drawing the plan's next exercise extends the exercises drawn so far. */
  lemma PlanDrawnStep(machines: seq<Machine>, starts: Weights, plan: Plan, progress: real, rand: nat -> real,
                      uuid: nat -> string, nextId: nat, next: nat, weights: Weights,
                      exercises: seq<Exercise>, d: seq<nat>, ws: seq<Weights>,
                      after: nat, afterId: nat, current: Weights, e: Exercise, w: Weights)
    requires PlanDrawn(machines, starts, plan, progress, rand, uuid, nextId, next, weights, exercises, d, ws, after, afterId, current)
    requires |exercises| < |plan.machines|
    requires ExerciseDrawn(machines, plan.machines[|exercises|], progress, rand, after, current, w, e)
    requires e.id == uuid(afterId) && GoodExercise(machines, e) && AtLeast(starts, w)
    ensures var at: nat := after + DrawsFor(e.feeling);
            PlanDrawn(machines, starts, plan, progress, rand, uuid, nextId, next, weights,
                      exercises + [e], d + [at], ws + [w], at, afterId + 1, w)
  {
    ExercisesForAppend(machines, plan, exercises, uuid, nextId, e);
    ExercisesDrawnAppend(machines, plan, progress, rand, exercises, d, ws, after, current, e, w);
    var at: nat := after + DrawsFor(e.feeling);
    assert (d + [at])[0] == next && (ws + [w])[0] == weights;
  }

  /**
   * An exercise drawn at weights not below the start weights is a good one,
   * with 8, 10 or 12 reps, and the weights after it stay at or above the starts.
   */
  lemma DrawnIsGood(machines: seq<Machine>, starts: Weights, name: string, progress: real, rand: nat -> real, at: nat,
                    before: Weights, after: Weights, e: Exercise)
    requires StartWeights(machines, starts) && AtLeast(starts, before)
    requires ExerciseDrawn(machines, name, progress, rand, at, before, after, e)
    ensures GoodExercise(machines, e) && e.reps != 15
    ensures AtLeast(starts, after)
  {
    StartOf(machines, starts, name);
    if e.feeling != JustRight {
      var adjusted := AdjustWeight(e.feeling, before[name], Lookup(machines, name).value.startWeight, rand(at + 3));
      AdjustBounds(e.feeling, before[name], Lookup(machines, name).value.startWeight, rand(at + 3));
      AtLeastUpdate(starts, before, name, adjusted);
    }
  }

  /**
   * The exercise for machine `name` (lines 67-86), with identifier `id` and
   * numbers drawn from position `at` of `rand` on, and the weights after it.
   */
  method DrawExercise(machines: seq<Machine>, ghost starts: Weights, name: string, progress: real, weights: Weights,
                      rand: nat -> real, at: nat, id: string)
    returns (e: Exercise, adjusted: Weights)
    requires forall n :: 0.0 <= rand(n) < 1.0
    requires StartWeights(machines, starts) && AtLeast(starts, weights) && name in weights
    ensures ExerciseDrawn(machines, name, progress, rand, at, weights, adjusted, e) && e.id == id
    ensures GoodExercise(machines, e) && AtLeast(starts, adjusted)
  {
    StartOf(machines, starts, name);
    var info := Lookup(machines, name).value;
    var weight := weights[name];
    var feeling := RandomFeeling(progress, rand(at));
    e := Exercise(id, name, info.category, weight, SetsFor(rand(at + 1)), RepsFor(rand(at + 2)), feeling, None, None);
    adjusted := weights;
    if feeling == TooEasy || feeling == TooHard {
      adjusted := weights[name := AdjustWeight(feeling, weight, info.startWeight, rand(at + 3))];
    }
    DrawnIsGood(machines, starts, name, progress, rand, at, weights, adjusted, e);
  }

  /**
   * The exercises of one workout for the machines of `plan` (lines 66-87),
   * drawing numbers from `rand` from position `next` on and identifiers from
   * `uuid` from position `nextId` on. The ghost results `d` and `ws` are
   * where each exercise's numbers start and the weights before and after
   * each exercise.
   */
  method PlanExercises(machines: seq<Machine>, ghost starts: Weights, plan: Plan, progress: real, weights: Weights,
                       rand: nat -> real, next: nat, uuid: nat -> string, nextId: nat)
    returns (exercises: seq<Exercise>, newWeights: Weights, after: nat, afterId: nat,
             ghost d: seq<nat>, ghost ws: seq<Weights>)
    requires forall n :: 0.0 <= rand(n) < 1.0
    requires StartWeights(machines, starts) && AtLeast(starts, weights)
    requires forall k :: 0 <= k < |plan.machines| ==> plan.machines[k] in weights
    ensures |exercises| == |plan.machines| && ExercisesFor(machines, plan, exercises, uuid, nextId)
    ensures ExercisesDrawn(machines, plan, progress, rand, exercises, d, ws)
    ensures d[0] == next && ws[0] == weights && after == d[|exercises|] && newWeights == ws[|exercises|]
    ensures AtLeast(starts, newWeights)
    ensures after >= next && afterId == nextId + |plan.machines|
  {
    exercises := [];
    newWeights := weights;
    after := next;
    afterId := nextId;
    d, ws := [next], [weights];
    for k := 0 to |plan.machines|
      invariant |exercises| == k
      invariant PlanDrawn(machines, starts, plan, progress, rand, uuid, nextId, next, weights,
                          exercises, d, ws, after, afterId, newWeights)
    {
      var e, adjusted := DrawExercise(machines, starts, plan.machines[k], progress, newWeights, rand, after, uuid(afterId));
      PlanDrawnStep(machines, starts, plan, progress, rand, uuid, nextId, next, weights,
                    exercises, d, ws, after, afterId, newWeights, e, adjusted);
      exercises := exercises + [e];
      after := after + DrawsFor(e.feeling);
      d, ws := d + [after], ws + [adjusted];
      newWeights := adjusted;
      afterId := afterId + 1;
    }
  }

  /** One walk day: its date string, `getDay()`, and `progressPercent`. */
  datatype Day = Day(date: string, weekday: int, progress: real)

  /** One workout on `day` following `plan` (lines 63-106). */
  method Workout(machines: seq<Machine>, ghost starts: Weights, day: Day, plan: Plan, weights: Weights,
                 rand: nat -> real, next: nat, uuid: nat -> string, nextId: nat)
    returns (session: WorkoutSession, newWeights: Weights, after: nat, afterId: nat,
             ghost d: seq<nat>, ghost ws: seq<Weights>)
    requires forall n :: 0.0 <= rand(n) < 1.0
    requires HasCoreMachine(machines)
    requires StartWeights(machines, starts) && HasCatalogue(machines, starts) && AtLeast(starts, weights)
    requires forall k :: 0 <= k < |plan.machines| ==> plan.machines[k] in weights
    ensures after >= next && afterId > nextId
    ensures session.date == day.date && session.id == uuid(afterId - 1)
    ensures UsesPlan(session, plan)
    ensures GoodSession(machines, session)
    ensures AtLeast(starts, newWeights)
    ensures ExercisesDrawn(machines, plan, day.progress, rand, session.exercises[..|plan.machines|], d, ws)
    ensures d[0] == next && ws[0] == weights && newWeights == ws[|plan.machines|]
    ensures |session.exercises| > |plan.machines| <==> rand(d[|plan.machines|]) > 0.6
    ensures rand(d[|plan.machines|]) > 0.6 ==>
              && "Cable Crunch" in newWeights
              && session.exercises[|plan.machines|]
                 == Exercise(uuid(nextId + |plan.machines|), "Cable Crunch", Core, newWeights["Cable Crunch"], 3, 15,
                             RandomFeeling(day.progress, rand(d[|plan.machines|] + 1)), None, None)
    ensures after == d[|plan.machines|] + (if rand(d[|plan.machines|]) > 0.6 then 2 else 1)
    ensures afterId == nextId + |session.exercises| + 1
  {
    var planned;
    planned, newWeights, after, afterId, d, ws := PlanExercises(machines, starts, plan, day.progress, weights, rand, next, uuid, nextId);
    assert nextId + |plan.machines| == afterId && d[|plan.machines|] == after;
    assert rand(d[|plan.machines|] + 1) == rand(after + 1);
    var exercises := planned;
    if rand(after) > 0.6 {
      FoundHasWeight(machines, starts, "Cable Crunch");
      var core := Exercise(uuid(afterId), "Cable Crunch", Core, newWeights["Cable Crunch"], 3, 15,
                           RandomFeeling(day.progress, rand(after + 1)), None, None);
      exercises := planned + [core];
      after := after + 2;
      afterId := afterId + 1;
    } else {
      after := after + 1;
    }
    assert exercises[..|planned|] == planned;
    session := WorkoutSession(uuid(afterId), day.date, exercises);
    afterId := afterId + 1;
  }

  function Dates(sessions: seq<WorkoutSession>): (r: seq<string>)
    ensures |r| == |sessions| && forall k :: 0 <= k < |r| ==> r[k] == sessions[k].date
  {
    seq(|sessions|, k requires 0 <= k < |sessions| => sessions[k].date)
  }

  /** The dates of the days marked in `taken`, in walk order. */
  function TakenDates(days: seq<Day>, taken: seq<bool>): seq<string>
    requires |taken| == |days|
  {
    if days == [] then []
    else TakenDates(days[..|days| - 1], taken[..|days| - 1])
         + (if taken[|days| - 1] then [days[|days| - 1].date] else [])
  }

  /** `a` sorts strictly before `b`, character by character (a proper prefix sorts first). */
  predicate Before(a: string, b: string)
  {
    if a == [] then b != []
    else if b == [] then false
    else a[0] < b[0] || (a[0] == b[0] && Before(a[1..], b[1..]))
  }

  lemma {:induction false} BeforeIrreflexive(a: string)
    ensures !Before(a, a)
  {
    if a != [] {
      BeforeIrreflexive(a[1..]);
    }
  }

  lemma {:induction false} BeforeAsymmetric(a: string, b: string)
    requires Before(a, b)
    ensures !Before(b, a)
  {
    if a != [] && b != [] && a[0] == b[0] {
      BeforeAsymmetric(a[1..], b[1..]);
    }
  }

  lemma {:induction false} BeforeTransitive(a: string, b: string, c: string)
    requires Before(a, b) && Before(b, c)
    ensures Before(a, c)
  {
    if a != [] && a[0] == b[0] && b[0] == c[0] {
      BeforeTransitive(a[1..], b[1..], c[1..]);
    }
  }

  lemma {:induction false} BeforeTotal(a: string, b: string)
    ensures a == b || Before(a, b) || Before(b, a)
  {
    if a != [] && b != [] && a[0] == b[0] {
      BeforeTotal(a[1..], b[1..]);
      if a[1..] == b[1..] {
        assert a == [a[0]] + a[1..] && b == [b[0]] + b[1..];
      }
    }
  }

  /** "Not after" is transitive. */
  lemma NotBeforeTransitive(a: string, b: string, c: string)
    requires !Before(a, b) && !Before(b, c)
    ensures !Before(a, c)
  {
    if Before(a, c) {
      BeforeTotal(b, c);
      if b != c {
        BeforeTransitive(a, c, b);
      }
    }
  }

  /** Newest first: no session has an earlier date than one after it. */
  ghost predicate SortedByDateDesc(s: seq<WorkoutSession>)
  {
    forall i, j :: 0 <= i < j < |s| ==> !Before(s[i].date, s[j].date)
  }

  /** Every pair of neighbours is in order. */
  predicate NeighboursDesc(s: seq<WorkoutSession>)
  {
    forall i :: 0 <= i < |s| - 1 ==> !Before(s[i].date, s[i + 1].date)
  }

  lemma {:induction false} NeighboursToSorted(s: seq<WorkoutSession>)
    requires NeighboursDesc(s)
    ensures SortedByDateDesc(s)
  {
    if |s| > 1 {
      NeighboursToSorted(s[1..]);
      forall j | 1 < j < |s| ensures !Before(s[0].date, s[j].date) {
        assert s[1..][j - 1] == s[j] && s[1..][0] == s[1];
        NotBeforeTransitive(s[0].date, s[1].date, s[j].date);
      }
      forall i, j | 0 <= i < j < |s| ensures !Before(s[i].date, s[j].date) {
        if i > 0 {
          assert s[1..][i - 1] == s[i] && s[1..][j - 1] == s[j];
        }
      }
    }
  }

  /**
   * Puts `x` into the newest-first list `s` after every session that is not
   * older, so sessions with equal dates keep their order.
   */
  function Insert(x: WorkoutSession, s: seq<WorkoutSession>): (r: seq<WorkoutSession>)
    ensures |r| == |s| + 1
    ensures r[0] == x || (s != [] && r[0] == s[0])
    ensures multiset(r) == multiset(s) + multiset{x}
  {
    if s == [] then [x]
    else if Before(s[0].date, x.date) then [x] + s
    else
      assert s == [s[0]] + s[1..];
      [s[0]] + Insert(x, s[1..])
  }

  lemma {:induction false} InsertSorted(x: WorkoutSession, s: seq<WorkoutSession>)
    requires NeighboursDesc(s)
    ensures NeighboursDesc(Insert(x, s))
  {
    if s != [] {
      if Before(s[0].date, x.date) {
        BeforeAsymmetric(s[0].date, x.date);
      } else {
        InsertSorted(x, s[1..]);
        var r := Insert(x, s[1..]);
        assert Insert(x, s) == [s[0]] + r;
      }
    }
  }

  /**
   * `sessions.sort((a, b) => b.date.localeCompare(a.date))`, as a stable
   * insertion sort: newest first, equal dates in their original order.
   */
  function SortByDateDesc(xs: seq<WorkoutSession>): seq<WorkoutSession>
  {
    if xs == [] then []
    else Insert(xs[|xs| - 1], SortByDateDesc(xs[..|xs| - 1]))
  }

  /** Sorting gives a newest-first arrangement of the same sessions. */
  lemma {:induction false} SortSortsAndPermutes(xs: seq<WorkoutSession>)
    ensures NeighboursDesc(SortByDateDesc(xs))
    ensures SortedByDateDesc(SortByDateDesc(xs))
    ensures multiset(SortByDateDesc(xs)) == multiset(xs)
  {
    if xs != [] {
      var p := xs[..|xs| - 1];
      SortSortsAndPermutes(p);
      InsertSorted(xs[|xs| - 1], SortByDateDesc(p));
      assert xs == p + [xs[|xs| - 1]];
    }
    NeighboursToSorted(SortByDateDesc(xs));
  }

  /** The sessions in reverse order. */
  function Reverse(s: seq<WorkoutSession>): (r: seq<WorkoutSession>)
    ensures |r| == |s| && forall k :: 0 <= k < |s| ==> r[k] == s[|s| - 1 - k]
  {
    seq(|s|, k requires 0 <= k < |s| => s[|s| - 1 - k])
  }

  /** Strictly oldest first. */
  ghost predicate AscendingDates(s: seq<WorkoutSession>)
  {
    forall i, j :: 0 <= i < j < |s| ==> Before(s[i].date, s[j].date)
  }

  /** Sorting sessions that are already strictly oldest first reverses them. */
  lemma {:induction false} SortAscendingReverses(xs: seq<WorkoutSession>)
    requires AscendingDates(xs)
    ensures SortByDateDesc(xs) == Reverse(xs)
  {
    if xs != [] {
      var p := xs[..|xs| - 1];
      var x := xs[|xs| - 1];
      assert AscendingDates(p) by {
        forall i, j | 0 <= i < j < |p| ensures Before(p[i].date, p[j].date) {
          assert p[i] == xs[i] && p[j] == xs[j];
        }
      }
      SortAscendingReverses(p);
      if p != [] {
        assert Reverse(p)[0] == xs[|xs| - 2];
        assert Before(Reverse(p)[0].date, x.date);
      }
      assert Insert(x, Reverse(p)) == [x] + Reverse(p);
      ReverseLast(xs);
    }
  }

  /** Reversing puts the last session first. */
  lemma ReverseLast(xs: seq<WorkoutSession>)
    requires xs != []
    ensures Reverse(xs) == [xs[|xs| - 1]] + Reverse(xs[..|xs| - 1])
  {
    var r, p := Reverse(xs), Reverse(xs[..|xs| - 1]);
    forall k | 0 <= k < |r| ensures r[k] == ([xs[|xs| - 1]] + p)[k] {
      if k > 0 {
        assert r[k] == xs[|xs| - 1 - k] == p[k - 1];
      }
    }
  }

  /** The walk's dates strictly increase. */
  ghost predicate AscendingDays(days: seq<Day>)
  {
    forall i, j :: 0 <= i < j < |days| ==> Before(days[i].date, days[j].date)
  }

  /** Strictly increasing dates. */
  ghost predicate Ascending(ds: seq<string>)
  {
    forall a, b :: 0 <= a < b < |ds| ==> Before(ds[a], ds[b])
  }

  /** On the days decided so far, the fixed workout days were taken and the rest days were not. */
  ghost predicate WeekdaysRespected(days: seq<Day>, taken: seq<bool>)
    requires |taken| <= |days|
  {
    forall j :: 0 <= j < |taken| ==>
      (FixedWorkoutDay(days[j].weekday) ==> taken[j]) && (RestDay(days[j].weekday) ==> !taken[j])
  }

  /**
   * Each day decided so far was taken exactly when the weekday rule says so
   * for the number drawn at position `rolls[j]` (only a Saturday reads it).
   */
  ghost predicate DaysDecided(days: seq<Day>, taken: seq<bool>, rand: nat -> real, rolls: seq<nat>)
    requires |taken| <= |days| && |rolls| == |taken|
  {
    forall j :: 0 <= j < |taken| ==> taken[j] == IsWorkoutDay(days[j].weekday, rand(rolls[j]))
  }

  /** A Saturday's draw is not read again on any later day. */
  ghost predicate SaturdayDrawsFresh(days: seq<Day>, rolls: seq<nat>)
    requires |rolls| <= |days|
  {
    forall j, k :: 0 <= j < k < |rolls| && days[j].weekday == 6 ==> rolls[j] < rolls[k]
  }

  /** Every draw read so far comes at or before position `next`, and a Saturday's before it. */
  ghost predicate DrawsBelow(days: seq<Day>, rolls: seq<nat>, next: nat)
    requires |rolls| <= |days|
  {
    forall j :: 0 <= j < |rolls| ==> rolls[j] <= next && (days[j].weekday == 6 ==> rolls[j] < next)
  }

  /** Session `k` follows plan `k` modulo the number of plans (`workoutIndex % workoutTemplates.length`). */
  ghost predicate PlanRotation(generated: seq<WorkoutSession>, plans: seq<Plan>)
    requires |plans| > 0
  {
    forall k :: 0 <= k < |generated| ==> UsesPlan(generated[k], plans[k % |plans|])
  }

  /** The session follows one of the plans. */
  ghost predicate FollowsAPlan(s: WorkoutSession, plans: seq<Plan>)
  {
    exists p :: 0 <= p < |plans| && UsesPlan(s, plans[p])
  }

  /** Counting from the oldest (last) session, session `k` follows plan `k` modulo the number of plans. */
  ghost predicate RotationFromOldest(sessions: seq<WorkoutSession>, plans: seq<Plan>)
    requires |plans| > 0
  {
    forall k :: 0 <= k < |sessions| ==> UsesPlan(sessions[k], plans[(|sessions| - 1 - k) % |plans|])
  }

  /** Every exercise of every session is a good one. */
  ghost predicate AllGood(machines: seq<Machine>, sessions: seq<WorkoutSession>)
  {
    forall k :: 0 <= k < |sessions| ==> GoodSession(machines, sessions[k])
  }

  /** Deciding one more day adds its date when it was taken. */
  lemma TakenDatesStep(days: seq<Day>, taken: seq<bool>, b: bool)
    requires |taken| < |days|
    ensures TakenDates(days[..|taken| + 1], taken + [b]) ==
            TakenDates(days[..|taken|], taken) + (if b then [days[|taken|].date] else [])
  {
    var i := |taken|;
    var d, t := days[..i + 1], taken + [b];
    assert d[..i] == days[..i] && t[..i] == taken;
    assert d[i] == days[i] && t[i] == b;
    assert TakenDates(d, t) == TakenDates(d[..i], t[..i]) + (if t[i] then [d[i].date] else []);
  }

  /** A session that follows the next plan and has good exercises keeps the walk's promises about sessions. */
  lemma SessionAppended(machines: seq<Machine>, plans: seq<Plan>, generated: seq<WorkoutSession>, session: WorkoutSession)
    requires |plans| > 0 && PlanRotation(generated, plans) && AllGood(machines, generated)
    requires UsesPlan(session, plans[|generated| % |plans|]) && GoodSession(machines, session)
    ensures PlanRotation(generated + [session], plans) && AllGood(machines, generated + [session])
    ensures Dates(generated + [session]) == Dates(generated) + [session.date]
  {
  }

  /** Deciding one more day by its own draw keeps every day decided and every Saturday's draw fresh. */
  lemma DecidedStep(days: seq<Day>, taken: seq<bool>, rand: nat -> real, rolls: seq<nat>, b: bool, drawn: nat, next: nat)
    requires |taken| < |days| && |rolls| == |taken|
    requires DaysDecided(days, taken, rand, rolls) && SaturdayDrawsFresh(days, rolls)
    requires DrawsBelow(days, rolls, drawn)
    requires b == IsWorkoutDay(days[|taken|].weekday, rand(drawn))
    requires drawn <= next && (days[|taken|].weekday == 6 ==> drawn < next)
    ensures DaysDecided(days, taken + [b], rand, rolls + [drawn]) && SaturdayDrawsFresh(days, rolls + [drawn])
    ensures DrawsBelow(days, rolls + [drawn], next)
  {
  }

  /** Days decided by the weekday rule respect the fixed workout days and the rest days. */
  lemma DecidedRespects(days: seq<Day>, taken: seq<bool>, rand: nat -> real, rolls: seq<nat>)
    requires |taken| <= |days| && |rolls| == |taken| && DaysDecided(days, taken, rand, rolls)
    ensures WeekdaysRespected(days, taken)
  {
    forall j | 0 <= j < |taken|
      ensures (FixedWorkoutDay(days[j].weekday) ==> taken[j]) && (RestDay(days[j].weekday) ==> !taken[j])
    {
      WeekdayRule(days[j].weekday, rand(rolls[j]));
    }
  }

  /** Each machine of a plan of the catalogue has a weight. */
  lemma PlanHasWeights(machines: seq<Machine>, plan: Plan, starts: Weights, weights: Weights)
    requires PlanCovered(machines, plan)
    requires HasCatalogue(machines, starts) && AtLeast(starts, weights)
    ensures forall k :: 0 <= k < |plan.machines| ==> plan.machines[k] in weights
  {
    forall k | 0 <= k < |plan.machines| ensures plan.machines[k] in weights {
      FoundHasWeight(machines, starts, plan.machines[k]);
    }
  }

  /**
   * One day of the walk (lines 52-107), with `plan` the plan next in turn:
   * the day's workout, when the day is a workout day.
   */
  method WalkDay(machines: seq<Machine>, ghost starts: Weights, plan: Plan, day: Day, weights: Weights,
                 rand: nat -> real, next: nat, uuid: nat -> string, nextId: nat)
    returns (session: Option<WorkoutSession>, newWeights: Weights, after: nat, afterId: nat)
    requires forall n :: 0.0 <= rand(n) < 1.0
    requires HasCoreMachine(machines) && PlanCovered(machines, plan)
    requires StartWeights(machines, starts) && HasCatalogue(machines, starts) && AtLeast(starts, weights)
    ensures session.Some? <==> IsWorkoutDay(day.weekday, rand(next))
    ensures FixedWorkoutDay(day.weekday) ==> session.Some?
    ensures RestDay(day.weekday) ==> session.None?
    ensures day.weekday == 6 ==> after > next
    ensures session.None? ==> after == next + (if day.weekday == 6 then 1 else 0)
    ensures session.Some? ==>
              session.value.date == day.date && UsesPlan(session.value, plan) && GoodSession(machines, session.value)
    ensures AtLeast(starts, newWeights)
    ensures after >= next
  {
    newWeights, after, afterId := weights, next, nextId;
    var isWorkout := FixedWorkoutDay(day.weekday);
    if day.weekday == 6 {
      isWorkout := IsWorkoutDay(day.weekday, rand(after));
      after := after + 1;
    }
    if isWorkout {
      PlanHasWeights(machines, plan, starts, weights);
      var s;
      ghost var d, ws;
      s, newWeights, after, afterId, d, ws := Workout(machines, starts, day, plan, weights, rand, after, uuid, afterId);
      session := Some(s);
    } else {
      session := None;
    }
  }

  /** Dates taken from days that all come before `d` come before `d`. */
  lemma {:induction false} TakenDatesBefore(days: seq<Day>, taken: seq<bool>, d: string)
    requires |taken| == |days|
    requires forall j :: 0 <= j < |days| ==> Before(days[j].date, d)
    ensures forall x :: 0 <= x < |TakenDates(days, taken)| ==> Before(TakenDates(days, taken)[x], d)
  {
    if days != [] {
      var n := |days| - 1;
      TakenDatesBefore(days[..n], taken[..n], d);
    }
  }

  /** Taking some of strictly increasing days gives strictly increasing dates. */
  lemma {:induction false} TakenDatesAscending(days: seq<Day>, taken: seq<bool>)
    requires |taken| == |days| && AscendingDays(days)
    ensures Ascending(TakenDates(days, taken))
  {
    if days != [] {
      var n := |days| - 1;
      var init := days[..n];
      TakenDatesAscending(init, taken[..n]);
      TakenDatesBefore(init, taken[..n], days[n].date);
    }
  }

  /**
   * The loop of `generateMockData` (lines 43-110) over the catalogue
   * `machines` and the plans `plans`, before the final sort: the sessions in
   * walk order, which days had a workout, and the final weights.
   */
  method Walk(machines: seq<Machine>, plans: seq<Plan>, days: seq<Day>, rand: nat -> real, uuid: nat -> string)
    returns (generated: seq<WorkoutSession>, taken: seq<bool>, weights: Weights, ghost rolls: seq<nat>)
    requires forall n :: 0.0 <= rand(n) < 1.0
    requires UniqueIds(machines, MachineName) && PlansCovered(machines, plans) && HasCoreMachine(machines)
    requires |plans| > 0
    ensures |taken| == |days| && |rolls| == |days|
    ensures DaysDecided(days, taken, rand, rolls) && SaturdayDrawsFresh(days, rolls)
    ensures WeekdaysRespected(days, taken)
    ensures Dates(generated) == TakenDates(days, taken)
    ensures PlanRotation(generated, plans) && AllGood(machines, generated)
    ensures AtLeastStart(machines, weights) && HasCatalogue(machines, weights)
    ensures AscendingDays(days) ==> Ascending(Dates(generated))
  {
    weights := InitialWeights(machines);
    ghost var starts := weights;
    generated := [];
    taken := [];
    rolls := [];
    var next: nat := 0;
    var nextId: nat := 0;
    var workoutIndex := 0;
    for i := 0 to |days|
      invariant |taken| == i && workoutIndex == |generated|
      invariant Dates(generated) == TakenDates(days[..i], taken)
      invariant |rolls| == i && DaysDecided(days, taken, rand, rolls) && SaturdayDrawsFresh(days, rolls)
      invariant DrawsBelow(days, rolls, next)
      invariant PlanRotation(generated, plans) && AllGood(machines, generated)
      invariant AtLeast(starts, weights)
    {
      var plan := plans[workoutIndex % |plans|];
      var session;
      ghost var drawn := next;
      session, weights, next, nextId := WalkDay(machines, starts, plan, days[i], weights, rand, next, uuid, nextId);
      TakenDatesStep(days, taken, session.Some?);
      if session.Some? {
        SessionAppended(machines, plans, generated, session.value);
        generated := generated + [session.value];
        workoutIndex := workoutIndex + 1;
      }
      DecidedStep(days, taken, rand, rolls, session.Some?, drawn, next);
      taken := taken + [session.Some?];
      rolls := rolls + [drawn];
    }
    assert days[..|days|] == days;
    DecidedRespects(days, taken, rand, rolls);
    AtLeastStartFromStarts(machines, starts, weights);
    if AscendingDays(days) {
      TakenDatesAscending(days, taken);
    }
  }

  /** The walk over catalogue `machines` and plans `plans`, sorted newest first. */
  method WalkSorted(machines: seq<Machine>, plans: seq<Plan>, days: seq<Day>, rand: nat -> real, uuid: nat -> string)
    returns (sessions: seq<WorkoutSession>)
    requires forall n :: 0.0 <= rand(n) < 1.0
    requires UniqueIds(machines, MachineName) && PlansCovered(machines, plans) && HasCoreMachine(machines)
    requires |plans| > 0
    ensures SortedByDateDesc(sessions)
    ensures forall i :: 0 <= i < |days| && FixedWorkoutDay(days[i].weekday) ==> days[i].date in Dates(sessions)
    ensures forall i :: 0 <= i < |sessions| ==> FollowsAPlan(sessions[i], plans)
    ensures AllGood(machines, sessions)
    ensures AscendingDays(days) ==> RotationFromOldest(sessions, plans)
  {
    var generated, taken, weights;
    ghost var rolls;
    generated, taken, weights, rolls := Walk(machines, plans, days, rand, uuid);
    sessions := SortByDateDesc(generated);
    SortSortsAndPermutes(generated);
    SortedPlans(plans, generated);
    SortedGood(machines, generated);
    SortedCover(days, generated, taken);
    if AscendingDays(days) {
      SortedRotation(plans, generated);
    }
  }

  /**
   * `generateMockData`: the walk's sessions, newest first. When the walk's
   * dates increase, the result is the walk in reverse, so counting from the
   * oldest session the plans rotate legs, push, pull, upper.
   */
  method GenerateMockData(days: seq<Day>, rand: nat -> real, uuid: nat -> string)
    returns (sessions: seq<WorkoutSession>)
    requires forall n :: 0.0 <= rand(n) < 1.0
    ensures SortedByDateDesc(sessions)
    ensures forall i :: 0 <= i < |days| && FixedWorkoutDay(days[i].weekday) ==> days[i].date in Dates(sessions)
    ensures forall i :: 0 <= i < |sessions| ==> FollowsAPlan(sessions[i], Plans())
    ensures AllGood(Machines(), sessions)
    ensures AscendingDays(days) ==> RotationFromOldest(sessions, Plans())
  {
    CatalogueFacts();
    sessions := WalkSorted(Machines(), Plans(), days, rand, uuid);
  }

  /** Where a sorted session came from in the walk. */
  lemma SortedFrom(generated: seq<WorkoutSession>, i: nat) returns (k: nat)
    requires i < |SortByDateDesc(generated)|
    ensures k < |generated| && generated[k] == SortByDateDesc(generated)[i]
  {
    SortSortsAndPermutes(generated);
    var sessions := SortByDateDesc(generated);
    assert sessions[i] in multiset(generated);
    k :| 0 <= k < |generated| && generated[k] == sessions[i];
  }

  /** Where a walk session went after sorting. */
  lemma SortedTo(generated: seq<WorkoutSession>, k: nat) returns (i: nat)
    requires k < |generated|
    ensures i < |SortByDateDesc(generated)| && SortByDateDesc(generated)[i] == generated[k]
  {
    SortSortsAndPermutes(generated);
    var sessions := SortByDateDesc(generated);
    assert generated[k] in multiset(sessions);
    i :| 0 <= i < |sessions| && sessions[i] == generated[k];
  }

  /** Sorting keeps each session's plan among the plans. */
  lemma SortedPlans(plans: seq<Plan>, generated: seq<WorkoutSession>)
    requires |plans| > 0 && PlanRotation(generated, plans)
    ensures forall i :: 0 <= i < |SortByDateDesc(generated)| ==> FollowsAPlan(SortByDateDesc(generated)[i], plans)
  {
    var sessions := SortByDateDesc(generated);
    forall i | 0 <= i < |sessions| ensures FollowsAPlan(sessions[i], plans) {
      var k := SortedFrom(generated, i);
      assert UsesPlan(sessions[i], plans[k % |plans|]);
    }
  }

  /** Sorting keeps every exercise good. */
  lemma SortedGood(machines: seq<Machine>, generated: seq<WorkoutSession>)
    requires AllGood(machines, generated)
    ensures AllGood(machines, SortByDateDesc(generated))
  {
    var sessions := SortByDateDesc(generated);
    forall i | 0 <= i < |sessions| ensures GoodSession(machines, sessions[i]) {
      var k := SortedFrom(generated, i);
    }
  }

  /** After sorting, every fixed workout day of the walk has a session. */
  lemma SortedCover(days: seq<Day>, generated: seq<WorkoutSession>, taken: seq<bool>)
    requires |taken| == |days| && WeekdaysRespected(days, taken)
    requires Dates(generated) == TakenDates(days, taken)
    ensures forall i :: 0 <= i < |days| && FixedWorkoutDay(days[i].weekday) ==> days[i].date in Dates(SortByDateDesc(generated))
  {
    var sessions := SortByDateDesc(generated);
    TakenDatesCover(days, taken);
    forall i | 0 <= i < |days| && FixedWorkoutDay(days[i].weekday) ensures days[i].date in Dates(sessions) {
      assert taken[i];
      assert days[i].date in Dates(generated);
      var k :| 0 <= k < |generated| && Dates(generated)[k] == days[i].date;
      var j := SortedTo(generated, k);
      assert Dates(sessions)[j] == days[i].date;
    }
  }

  /** When the walk's dates increase, sorting reverses it, so plans rotate counting from the oldest session. */
  lemma SortedRotation(plans: seq<Plan>, generated: seq<WorkoutSession>)
    requires |plans| > 0 && PlanRotation(generated, plans) && Ascending(Dates(generated))
    ensures RotationFromOldest(SortByDateDesc(generated), plans)
  {
    forall a, b | 0 <= a < b < |generated| ensures Before(generated[a].date, generated[b].date) {
      assert Dates(generated)[a] == generated[a].date && Dates(generated)[b] == generated[b].date;
    }
    SortAscendingReverses(generated);
  }

  /** Every day marked in `taken` gave a session with its date. */
  lemma {:induction false} TakenDatesCover(days: seq<Day>, taken: seq<bool>)
    requires |taken| == |days|
    ensures forall i :: 0 <= i < |days| && taken[i] ==> days[i].date in TakenDates(days, taken)
  {
    if days != [] {
      var n := |days| - 1;
      TakenDatesCover(days[..n], taken[..n]);
    }
  }

  /** What `getMockDataStats` returns. */
  datatype Stats = Stats(totalWorkouts: int, totalExercises: int, dateRange: string)

  /** All exercises of all sessions, in order. */
  function AllExercises(sessions: seq<WorkoutSession>): seq<Exercise>
  {
    if sessions == [] then [] else sessions[0].exercises + AllExercises(sessions[1..])
  }

  /** `reduce((sum, s) => sum + s.exercises.length, acc)`, from the left. */
  function SumExercises(sessions: seq<WorkoutSession>, acc: int): int
  {
    if sessions == [] then acc else SumExercises(sessions[1..], acc + |sessions[0].exercises|)
  }

  /** The fold counts every exercise of every session once. */
  lemma {:induction false} SumCountsAll(sessions: seq<WorkoutSession>, acc: int)
    ensures SumExercises(sessions, acc) == acc + |AllExercises(sessions)|
  {
    if sessions != [] {
      SumCountsAll(sessions[1..], acc + |sessions[0].exercises|);
    }
  }

  /** `getMockDataStats`. */
  function MockDataStats(sessions: seq<WorkoutSession>): (r: Stats)
    ensures r.totalWorkouts == |sessions|
    ensures r.totalExercises == |AllExercises(sessions)|
    ensures sessions == [] ==> r.dateRange == "No data"
    ensures sessions != [] ==> r.dateRange == sessions[|sessions| - 1].date + " to " + sessions[0].date
  {
    SumCountsAll(sessions, 0);
    Stats(|sessions|, SumExercises(sessions, 0),
          if |sessions| > 0 then sessions[|sessions| - 1].date + " to " + sessions[0].date else "No data")
  }

  /** For newest-first sessions the date range reads from the oldest date to the newest. */
  lemma DateRangeOrdered(sessions: seq<WorkoutSession>)
    requires sessions != [] && SortedByDateDesc(sessions)
    ensures !Before(sessions[0].date, sessions[|sessions| - 1].date)
  {
    if |sessions| > 1 {
      assert 0 < |sessions| - 1;
    } else {
      BeforeIrreflexive(sessions[0].date);
    }
  }
}
