/**
 * The records of src/lib/types.ts. TypeScript string unions become
 * enumerations; `number` fields that hold kilograms, minutes or speeds become
 * `real` (exact, so 2.5 kg steps are represented without rounding), set and
 * repetition counts become `int`; optional fields become `Option`.
 */
module Types {
  import opened Wrappers

  datatype Category = Legs | Back | Chest | Shoulders | Arms | Core | Cardio | Sports

  /** The string each category is stored as. */
  function CategoryName(c: Category): string
  {
    match c
    case Legs => "legs"
    case Back => "back"
    case Chest => "chest"
    case Shoulders => "shoulders"
    case Arms => "arms"
    case Core => "core"
    case Cardio => "cardio"
    case Sports => "sports"
  }

  /** Reads a stored category name back; any other string is not a category. */
  function CategoryFromName(s: string): (r: Option<Category>)
    ensures r.Some? ==> CategoryName(r.value) == s
  {
    match s
    case "legs" => Some(Legs)
    case "back" => Some(Back)
    case "chest" => Some(Chest)
    case "shoulders" => Some(Shoulders)
    case "arms" => Some(Arms)
    case "core" => Some(Core)
    case "cardio" => Some(Cardio)
    case "sports" => Some(Sports)
    case _ => None
  }

  /** Every category is read back as itself, so the eight names are distinct. */
  lemma CategoryNameRoundTrip(c: Category)
    ensures CategoryFromName(CategoryName(c)) == Some(c)
  {
    match c
    case Legs =>
    case Back =>
    case Chest =>
    case Shoulders =>
    case Arms =>
    case Core =>
    case Cardio =>
    case Sports =>
  }

  datatype Feeling = TooEasy | JustRight | TooHard

  datatype CardioDetails = CardioDetails(minutes: real, speed: real, incline: real, calories: real)

  datatype Exercise = Exercise(
    id: string,
    machine: string,
    category: Category,
    weight: real,
    sets: int,
    reps: int,
    feeling: Feeling,
    notes: Option<string>,
    cardio: Option<CardioDetails>)

  datatype WorkoutSession = WorkoutSession(id: string, date: string, exercises: seq<Exercise>)

  datatype TemplateExercise = TemplateExercise(
    machine: string,
    category: Category,
    defaultWeight: real,
    defaultSets: int,
    defaultReps: int)

  datatype WorkoutTemplate = WorkoutTemplate(
    id: string,
    name: string,
    exercises: seq<TemplateExercise>,
    createdAt: string)
}
