/**
 * The machine name dictionary of src/lib/i18n/machineTranslations.ts.
 * Workout data stores machine names in English; the dictionary maps each
 * known English name to its English and Spanish display names.
 * `translateMachine` looks a stored name up for display, and
 * `findEnglishName` maps a name typed in Spanish back to the stored one,
 * ignoring case. Names the dictionary does not know are custom machines and
 * pass through both functions unchanged.
 */
module MachineTranslations {
  import opened Wrappers
  import opened IdLists

  datatype Language = En | Es

  /** One dictionary entry: the stored English name and its two display names. */
  datatype Entry = Entry(key: string, en: string, es: string)

  /** `translation[language]`. */
  function Name(e: Entry, lang: Language): string
  {
    match lang
    case En => e.en
    case Es => e.es
  }

  // The dictionary in source order, which is also the order in which
  // `Object.entries` lists its keys, a few entries at a time.

  function Chunk0(): seq<Entry>
  {
    [
      // Legs
      Entry("Leg Press", "Leg Press", "Prensa de Piernas"),
      Entry("Leg Curl", "Leg Curl", "Flexión de Piernas Sentado"),
      Entry("Leg Extension", "Leg Extension", "Extensión de Piernas"),
      Entry("Calf Raise", "Calf Raise", "Elevación de Pantorrillas"),
      Entry("Hip Abductor", "Hip Abductor", "Muslo Exterior")
    ]
  }

  function Chunk1(): seq<Entry>
  {
    [
      Entry("Hip Adductor", "Hip Adductor", "Muslo Interior"),
      Entry("Hack Squat", "Hack Squat", "Hack Squat"),
      Entry("Glute Kickback", "Glute Kickback", "Extensión de Glúteos"),
      Entry("Squats", "Squats", "Sentadillas"),
      Entry("Lunges", "Lunges", "Zancadas")
    ]
  }

  function Chunk2(): seq<Entry>
  {
    [
      Entry("Romanian Deadlift", "Romanian Deadlift", "Peso Muerto Rumano"),
      Entry("Bulgarian Split Squat", "Bulgarian Split Squat", "Sentadilla Búlgara"),
      Entry("Goblet Squat", "Goblet Squat", "Sentadilla Goblet"),
      Entry("Hip Thrust", "Hip Thrust", "Hip Thrust"),
      Entry("Deadlift", "Deadlift", "Peso Muerto")
    ]
  }

  function Chunk3(): seq<Entry>
  {
    [
      // Chest
      Entry("Chest Press", "Chest Press", "Prensa de Pecho Convergente"),
      Entry("Incline Press", "Incline Press", "Prensa Inclinada"),
      Entry("Pec Fly", "Pec Fly", "Aperturas de Pecho"),
      Entry("Cable Crossover", "Cable Crossover", "Cruce de Poleas"),
      Entry("Decline Press", "Decline Press", "Prensa Declinada")
    ]
  }

  function Chunk4(): seq<Entry>
  {
    [
      Entry("Dumbbell Bench Press", "Dumbbell Bench Press", "Press de Banca con Mancuernas"),
      Entry("Push-ups", "Push-ups", "Flexiones"),
      // Back
      Entry("Lat Pulldown", "Lat Pulldown", "Dorsal en Polea Alta"),
      Entry("Seated Row", "Seated Row", "Remo Sentado"),
      Entry("Cable Row", "Cable Row", "Remo en Polea")
    ]
  }

  function Chunk5(): seq<Entry>
  {
    [
      Entry("Back Extension", "Back Extension", "Extensión de Espalda"),
      Entry("Assisted Pull-up", "Assisted Pull-up", "Dominadas Asistidas"),
      Entry("T-Bar Row", "T-Bar Row", "Remo T-Bar"),
      Entry("Pull-ups", "Pull-ups", "Dominadas"),
      Entry("Dumbbell Row", "Dumbbell Row", "Remo con Mancuerna")
    ]
  }

  function Chunk6(): seq<Entry>
  {
    [
      Entry("Barbell Row", "Barbell Row", "Remo con Barra"),
      Entry("Chin-ups", "Chin-ups", "Dominadas Supinas"),
      Entry("Reverse Fly", "Reverse Fly", "Aperturas Invertidas"),
      Entry("Straight Arm Pulldown", "Straight Arm Pulldown", "Pulldown Brazos Rectos"),
      // Shoulders
      Entry("Shoulder Press", "Shoulder Press", "Prensa de Hombros Convergente")
    ]
  }

  function Chunk7(): seq<Entry>
  {
    [
      Entry("Lateral Raise", "Lateral Raise", "Elevaciones Laterales"),
      Entry("Rear Delt Fly", "Rear Delt Fly", "Aperturas Traseras"),
      Entry("Face Pull", "Face Pull", "Face Pull"),
      Entry("Upright Row", "Upright Row", "Remo al Mentón"),
      Entry("Dumbbell Shoulder Press", "Dumbbell Shoulder Press", "Press de Hombros con Mancuernas")
    ]
  }

  function Chunk8(): seq<Entry>
  {
    [
      Entry("Front Raise", "Front Raise", "Elevaciones Frontales"),
      Entry("Arnold Press", "Arnold Press", "Press Arnold"),
      Entry("Cable Lateral Raise", "Cable Lateral Raise", "Elevación Lateral en Polea"),
      Entry("Shrugs", "Shrugs", "Encogimientos"),
      // Arms
      Entry("Bicep Curl", "Bicep Curl", "Curl de Bíceps")
    ]
  }

  function Chunk9(): seq<Entry>
  {
    [
      Entry("Tricep Pushdown", "Tricep Pushdown", "Extensión de Tríceps en Polea"),
      Entry("Tricep Extension", "Tricep Extension", "Extensión de Tríceps"),
      Entry("Preacher Curl", "Preacher Curl", "Curl en Banco Scott"),
      Entry("Cable Curl", "Cable Curl", "Curl en Polea"),
      Entry("Hammer Curl", "Hammer Curl", "Curl Martillo")
    ]
  }

  function Chunk10(): seq<Entry>
  {
    [
      Entry("Dumbbell Curl", "Dumbbell Curl", "Curl con Mancuernas"),
      Entry("Tricep Dips", "Tricep Dips", "Fondos de Tríceps"),
      Entry("Skull Crushers", "Skull Crushers", "Rompecráneos"),
      Entry("Concentration Curl", "Concentration Curl", "Curl Concentrado"),
      Entry("Overhead Tricep Extension", "Overhead Tricep Extension", "Extensión de Tríceps Sobre Cabeza")
    ]
  }

  function Chunk11(): seq<Entry>
  {
    [
      Entry("Close Grip Bench Press", "Close Grip Bench Press", "Press de Banca Agarre Cerrado"),
      Entry("EZ Bar Curl", "EZ Bar Curl", "Curl con Barra Z"),
      // Core
      Entry("Cable Crunch", "Cable Crunch", "Crunch en Polea"),
      Entry("Ab Machine", "Ab Machine", "Máquina Abdominal"),
      Entry("Torso Rotation", "Torso Rotation", "Rotación de Torso")
    ]
  }

  function Chunk12(): seq<Entry>
  {
    [
      Entry("Hanging Leg Raise", "Hanging Leg Raise", "Elevación de Piernas Colgado"),
      Entry("Plank", "Plank", "Plancha"),
      Entry("Crunches", "Crunches", "Abdominales"),
      Entry("Russian Twist", "Russian Twist", "Giro Ruso"),
      Entry("Leg Raise", "Leg Raise", "Elevación de Piernas")
    ]
  }

  function Chunk13(): seq<Entry>
  {
    [
      Entry("Mountain Climbers", "Mountain Climbers", "Escaladores"),
      Entry("Bicycle Crunches", "Bicycle Crunches", "Abdominales Bicicleta"),
      Entry("Dead Bug", "Dead Bug", "Dead Bug"),
      Entry("Wood Chop", "Wood Chop", "Leñador"),
      // Cardio
      Entry("Treadmill", "Treadmill", "Cinta de Correr")
    ]
  }

  function Chunk14(): seq<Entry>
  {
    [
      Entry("Stationary Bike", "Stationary Bike", "Bicicleta Estática"),
      Entry("Elliptical", "Elliptical", "Elíptica"),
      Entry("Rowing Machine", "Rowing Machine", "Máquina de Remo"),
      Entry("Stair Climber", "Stair Climber", "Escaladora"),
      Entry("Spin Bike", "Spin Bike", "Bicicleta de Spinning")
    ]
  }

  function Chunk15(): seq<Entry>
  {
    [
      Entry("Jump Rope", "Jump Rope", "Saltar la Cuerda"),
      Entry("Arc Trainer", "Arc Trainer", "Arc Trainer"),
      Entry("Ski Erg", "Ski Erg", "Ski Erg"),
      Entry("Assault Bike", "Assault Bike", "Assault Bike"),
      // Free weights / General
      Entry("Dumbbells", "Dumbbells", "Mancuernas")
    ]
  }

  function Chunk16(): seq<Entry>
  {
    [
      Entry("Barbell", "Barbell", "Barra"),
      Entry("Kettlebell", "Kettlebell", "Pesa Rusa"),
      Entry("Smith Machine", "Smith Machine", "Máquina Smith"),
      Entry("Cable Machine", "Cable Machine", "Máquina de Poleas"),
      // Sports
      Entry("Swimming", "Swimming", "Natación")
    ]
  }

  function Chunk17(): seq<Entry>
  {
    [
      Entry("Basketball", "Basketball", "Baloncesto"),
      Entry("Soccer", "Soccer", "Fútbol"),
      Entry("Tennis", "Tennis", "Tenis"),
      Entry("Padel", "Padel", "Pádel"),
      Entry("Volleyball", "Volleyball", "Voleibol")
    ]
  }

  function Chunk18(): seq<Entry>
  {
    [
      Entry("Hiking", "Hiking", "Senderismo"),
      Entry("Yoga", "Yoga", "Yoga"),
      Entry("Pilates", "Pilates", "Pilates"),
      Entry("Boxing", "Boxing", "Boxeo"),
      Entry("Martial Arts", "Martial Arts", "Artes Marciales")
    ]
  }

  function Chunk19(): seq<Entry>
  {
    [
      Entry("Dancing", "Dancing", "Baile"),
      Entry("Climbing", "Climbing", "Escalada"),
      Entry("Cycling", "Cycling", "Ciclismo")
    ]
  }

  /** `machineTranslations`, as a list of entries. */
  function Table(): seq<Entry>
  {
    Chunk0() + Chunk1() + Chunk2() + Chunk3() + Chunk4() + Chunk5() + Chunk6() + Chunk7() + Chunk8() + Chunk9() + Chunk10() + Chunk11() + Chunk12() + Chunk13() + Chunk14() + Chunk15() + Chunk16() + Chunk17() + Chunk18() + Chunk19()
  }

  function EntryKey(e: Entry): string
  {
    e.key
  }

  /**
   * `String.prototype.toLowerCase` on one character, for the characters that
   * occur in machine names: the ASCII capitals and the Latin-1 capitals
   * (U+00C0 to U+00DE except the multiplication sign) move down by 32; every
   * other character is left as it is.
   */
  function LowerChar(c: char): char
  {
    if 'A' <= c <= 'Z' || ('\U{C0}' <= c <= '\U{DE}' && c != '\U{D7}') then (c as int + 32) as char
    else c
  }

  /** `toLowerCase`, character by character. */
  function Lower(s: string): string
  {
    seq(|s|, i requires 0 <= i < |s| => LowerChar(s[i]))
  }

  /** Lower-casing keeps the length, and lower-casing twice is lower-casing once. */
  lemma LowerIdempotent(s: string)
    ensures |Lower(s)| == |s|
    ensures Lower(Lower(s)) == Lower(s)
  {
    forall i | 0 <= i < |s| ensures Lower(Lower(s))[i] == Lower(s)[i] {
      var c := s[i];
      assert LowerChar(LowerChar(c)) == LowerChar(c);
    }
  }

  /** An entry's Spanish name, lower-cased: what `findEnglishName` compares. */
  function SpanishKey(e: Entry): string
  {
    Lower(e.es)
  }

  /** `translateMachine` over the dictionary `t`: the entry's name in `lang` when `name` is a key, `name` itself otherwise. */
  function Translate(t: seq<Entry>, name: string, lang: Language): (r: string)
    ensures (forall i :: 0 <= i < |t| ==> t[i].key != name) ==> r == name
    ensures r == name || exists i :: 0 <= i < |t| && t[i].key == name && r == Name(t[i], lang)
  {
    match FindId(t, EntryKey, name)
    case Some(e) => Name(e, lang)
    case None => name
  }

  /**
   * `findEnglishName` over the dictionary `t`: in English the name itself; in
   * Spanish the key of the first entry whose Spanish name equals
   * `displayName` up to case, or `displayName` itself when there is none.
   */
  function FindEnglish(t: seq<Entry>, displayName: string, lang: Language): (r: string)
    ensures lang == En ==> r == displayName
    ensures lang == Es && (forall i :: 0 <= i < |t| ==> Lower(t[i].es) != Lower(displayName)) ==> r == displayName
    ensures r == displayName || exists i :: 0 <= i < |t| && Lower(t[i].es) == Lower(displayName) && r == t[i].key
  {
    if lang == En then displayName
    else match FindId(t, SpanishKey, Lower(displayName))
      case Some(e) => e.key
      case None => displayName
  }

  /** `translateMachine` on the machine dictionary. */
  function TranslateMachine(name: string, lang: Language): string
  {
    Translate(Table(), name, lang)
  }

  /** `findEnglishName` on the machine dictionary. */
  function FindEnglishName(displayName: string, lang: Language): string
  {
    FindEnglish(Table(), displayName, lang)
  }

  /**
   * What both functions rely on in a dictionary: keys are distinct, Spanish
   * names are distinct up to case, and every English name is its key.
   */
  ghost predicate WellFormed(t: seq<Entry>)
  {
    && UniqueIds(t, EntryKey)
    && UniqueIds(t, SpanishKey)
    && forall i :: 0 <= i < |t| ==> t[i].en == t[i].key
  }

  /** A known key is shown with its own entry's name. */
  lemma TranslateKnownIn(t: seq<Entry>, i: nat, lang: Language)
    requires UniqueIds(t, EntryKey) && i < |t|
    ensures Translate(t, t[i].key, lang) == Name(t[i], lang)
  {
    var r := FindId(t, EntryKey, t[i].key);
    assert EntryKey(t[i]) == t[i].key;
    var j :| 0 <= j < |t| && t[j] == r.value && EntryKey(t[j]) == t[i].key;
    assert j == i;
  }

  /** A Spanish name typed in any case leads back to its own entry's key. */
  lemma FindEnglishKnownIn(t: seq<Entry>, i: nat, displayName: string)
    requires UniqueIds(t, SpanishKey) && i < |t| && Lower(displayName) == Lower(t[i].es)
    ensures FindEnglish(t, displayName, Es) == t[i].key
  {
    var r := FindId(t, SpanishKey, Lower(displayName));
    assert SpanishKey(t[i]) == Lower(displayName);
    var j :| 0 <= j < |t| && t[j] == r.value && SpanishKey(t[j]) == Lower(displayName);
    assert j == i;
  }

  /** When English names are the keys, showing any name in English changes nothing. */
  lemma TranslateEnglishIn(t: seq<Entry>, name: string)
    requires forall i :: 0 <= i < |t| ==> t[i].en == t[i].key
    ensures Translate(t, name, En) == name
  {
  }

  /** `name` is the key of an entry of `t`. */
  ghost predicate KnownIn(t: seq<Entry>, name: string)
  {
    exists i :: 0 <= i < |t| && t[i].key == name
  }

  /** In a well-formed dictionary, showing a key in either language and reading the shown name back gives the key. */
  lemma RoundTripIn(t: seq<Entry>, name: string, lang: Language)
    requires WellFormed(t) && KnownIn(t, name)
    ensures FindEnglish(t, Translate(t, name, lang), lang) == name
  {
    var i :| 0 <= i < |t| && t[i].key == name;
    TranslateKnownIn(t, i, lang);
    if lang == Es {
      FindEnglishKnownIn(t, i, t[i].es);
    }
  }

  /**
   * The Spanish search ignores case: names that differ only in case find the
   * same entry. (When no entry matches, each name is returned as typed, so
   * the results then differ exactly as the names do.)
   */
  lemma FindEnglishIgnoresCase(t: seq<Entry>, x: string, y: string)
    requires Lower(x) == Lower(y)
    ensures (exists i :: 0 <= i < |t| && Lower(t[i].es) == Lower(x)) ==> FindEnglish(t, x, Es) == FindEnglish(t, y, Es)
    ensures (forall i :: 0 <= i < |t| ==> Lower(t[i].es) != Lower(x)) ==> FindEnglish(t, x, Es) == x && FindEnglish(t, y, Es) == y
  {
  }

  // The dictionary's keys are distinct and so are its Spanish names up to
  // case. Comparing all pairs of entries is quadratic; instead two decision
  // trees map a key, and a lower-cased Spanish name, to the position of the
  // entry that has it. Checking that each entry is sent to its own position
  // is linear, and two entries sharing a key (or a Spanish name) would then
  // share a position.

  /** The position of the entry whose key is `s`, decided from its length and a few characters. */
  function KeyIndex(s: string): int
  {
    match |s|
    case 4 => if s == "Yoga" then 91 else -1
    case 5 => if s[1] == 'l' then if s == "Plank" then 61 else -1
      else if s == "Padel" then 88 else -1
    case 6 => if s[1] == 'q' then if s == "Squats" then 8 else -1
      else if s[1] == 'u' then if s == "Lunges" then 9 else -1
      else if s[1] == 'h' then if s == "Shrugs" then 43 else -1
      else if s[1] == 'o' then if s[0] == 'S' then if s == "Soccer" then 86 else -1
        else if s == "Boxing" then 93 else -1
      else if s[1] == 'e' then if s == "Tennis" then 87 else -1
      else if s == "Hiking" then 90 else -1
    case 7 => if s[0] == 'P' then if s[1] == 'e' then if s == "Pec Fly" then 17 else -1
        else if s == "Pilates" then 92 else -1
      else if s[0] == 'S' then if s == "Ski Erg" then 77 else -1
      else if s[0] == 'B' then if s == "Barbell" then 80 else -1
      else if s[0] == 'D' then if s == "Dancing" then 95 else -1
      else if s == "Cycling" then 97 else -1
    case 8 => if s[4] == 'C' then if s == "Leg Curl" then 1 else -1
      else if s[4] == 'l' then if s == "Deadlift" then 14 else -1
      else if s[4] == '-' then if s[2] == 's' then if s == "Push-ups" then 21 else -1
        else if s[2] == 'l' then if s == "Pull-ups" then 28 else -1
        else if s == "Chin-ups" then 31 else -1
      else if s[4] == 'c' then if s == "Crunches" then 62 else -1
      else if s[4] == ' ' then if s == "Dead Bug" then 67 else -1
      else if s[4] == 'm' then if s == "Swimming" then 84 else -1
      else if s == "Climbing" then 96 else -1
    case 9 => if s[5] == 'r' then if s == "Leg Press" then 0 else -1
      else if s[5] == ' ' then if s[0] == 'C' then if s == "Cable Row" then 24 else -1
        else if s == "T-Bar Row" then 27 else -1
      else if s[5] == 'P' then if s == "Face Pull" then 37 else -1
      else if s[5] == 'a' then if s == "Leg Raise" then 64 else -1
      else if s[5] == 'C' then if s == "Wood Chop" then 68 else -1
      else if s[5] == 'm' then if s == "Treadmill" then 69 else -1
      else if s[5] == 'B' then if s == "Spin Bike" then 74 else -1
      else if s[5] == 'R' then if s == "Jump Rope" then 75 else -1
      else if s == "Dumbbells" then 79 else -1
    case 10 => if s[5] == 'R' then if s == "Calf Raise" then 3 else -1
      else if s[5] == 'S' then if s == "Hack Squat" then 6 else -1
      else if s[5] == 'h' then if s == "Hip Thrust" then 13 else -1
      else if s[5] == 'd' then if s == "Seated Row" then 23 else -1
      else if s[5] == ' ' then if s[0] == 'B' then if s == "Bicep Curl" then 44 else -1
        else if s == "Cable Curl" then 48 else -1
      else if s[5] == 'c' then if s == "Ab Machine" then 58 else -1
      else if s[5] == 't' then if s[0] == 'E' then if s == "Elliptical" then 71 else -1
        else if s == "Basketball" then 85 else -1
      else if s[5] == 'e' then if s == "Kettlebell" then 81 else -1
      else if s == "Volleyball" then 89 else -1
    case 11 => if s[0] == 'C' then if s == "Chest Press" then 15 else -1
      else if s[0] == 'B' then if s == "Barbell Row" then 30 else -1
      else if s[0] == 'R' then if s == "Reverse Fly" then 32 else -1
      else if s[0] == 'U' then if s == "Upright Row" then 38 else -1
      else if s[0] == 'F' then if s == "Front Raise" then 40 else -1
      else if s[0] == 'H' then if s == "Hammer Curl" then 49 else -1
      else if s[0] == 'T' then if s == "Tricep Dips" then 51 else -1
      else if s[0] == 'E' then if s == "EZ Bar Curl" then 56 else -1
      else if s == "Arc Trainer" then 76 else -1
    case 12 => if s[5] == 'b' then if s == "Hip Abductor" then 4 else -1
      else if s[5] == 'd' then if s[0] == 'H' then if s == "Hip Adductor" then 5 else -1
        else if s == "Arnold Press" then 41 else -1
      else if s[5] == 't' then if s == "Goblet Squat" then 12 else -1
      else if s[5] == 'u' then if s == "Lat Pulldown" then 22 else -1
      else if s[5] == 'e' then if s == "Dumbbell Row" then 29 else -1
      else if s[5] == ' ' then if s == "Cable Crunch" then 57 else -1
      else if s[5] == 'l' then if s == "Assault Bike" then 78 else -1
      else if s == "Martial Arts" then 94 else -1
    case 13 => if s[2] == 'g' then if s == "Leg Extension" then 2 else -1
      else if s[2] == 'c' then if s[0] == 'I' then if s == "Incline Press" then 16 else -1
        else if s == "Decline Press" then 19 else -1
      else if s[2] == 't' then if s == "Lateral Raise" then 35 else -1
      else if s[2] == 'a' then if s[0] == 'R' then if s == "Rear Delt Fly" then 36 else -1
        else if s == "Stair Climber" then 73 else -1
      else if s[2] == 'e' then if s == "Preacher Curl" then 47 else -1
      else if s[2] == 'm' then if s == "Dumbbell Curl" then 50 else -1
      else if s[2] == 's' then if s == "Russian Twist" then 63 else -1
      else if s[2] == 'i' then if s == "Smith Machine" then 82 else -1
      else if s == "Cable Machine" then 83 else -1
    case 14 => if s[3] == 't' then if s == "Glute Kickback" then 7 else -1
      else if s[3] == 'k' then if s == "Back Extension" then 25 else -1
      else if s[3] == 'u' then if s == "Shoulder Press" then 34 else -1
      else if s[3] == 'l' then if s == "Skull Crushers" then 52 else -1
      else if s[3] == 's' then if s == "Torso Rotation" then 59 else -1
      else if s == "Rowing Machine" then 72 else -1
    case 15 => if s[0] == 'C' then if s == "Cable Crossover" then 18 else -1
      else if s[0] == 'T' then if s == "Tricep Pushdown" then 45 else -1
      else if s == "Stationary Bike" then 70 else -1
    case 16 => if s[0] == 'A' then if s == "Assisted Pull-up" then 26 else -1
      else if s[0] == 'T' then if s == "Tricep Extension" then 46 else -1
      else if s == "Bicycle Crunches" then 66 else -1
    case 17 => if s[0] == 'R' then if s == "Romanian Deadlift" then 10 else -1
      else if s[0] == 'H' then if s == "Hanging Leg Raise" then 60 else -1
      else if s == "Mountain Climbers" then 65 else -1
    case 18 => if s == "Concentration Curl" then 53 else -1
    case 19 => if s == "Cable Lateral Raise" then 42 else -1
    case 20 => if s == "Dumbbell Bench Press" then 20 else -1
    case 21 => if s[0] == 'B' then if s == "Bulgarian Split Squat" then 11 else -1
      else if s == "Straight Arm Pulldown" then 33 else -1
    case 22 => if s == "Close Grip Bench Press" then 55 else -1
    case 23 => if s == "Dumbbell Shoulder Press" then 39 else -1
    case 25 => if s == "Overhead Tricep Extension" then 54 else -1
    case _ => -1
  }

  /** The position of the entry whose lower-cased Spanish name is `s`. */
  function SpanishIndex(s: string): int
  {
    match |s|
    case 4 => 91
    case 5 => if s[2] == 'r' then 80
      else if s[2] == 'n' then 87
      else if s[2] == 'd' then 88
      else if s[2] == 'x' then 93
      else 95
    case 6 => 86
    case 7 => if s[1] == 'l' then 61
      else if s[1] == 'e' then 68
      else if s[1] == 'k' then 77
      else 92
    case 8 => if s[6] == 'a' then 9
      else if s[6] == 'u' then 67
      else if s[6] == 'c' then 71
      else if s[6] == 'ó' then 84
      else if s[6] == 'o' then 89
      else if s[6] == 'd' then 96
      else 97
    case 9 => if s[1] == 'l' then 21
      else if s[1] == 'o' then 28
      else if s[1] == 'a' then 37
      else if s[1] == 'i' then 63
      else 81
    case 10 => if s[5] == 's' then 6
      else if s[5] == 'h' then 13
      else if s[5] == 't' then 27
      else if s[5] == 'a' then 73
      else if s[5] == 'e' then 79
      else if s[5] == 'c' then 85
      else 90
    case 11 => if s[4] == 'a' then 8
      else if s[4] == ' ' then 14
      else if s[4] == 'm' then 62
      else if s[4] == 'l' then 65
      else 76
    case 12 => if s[1] == 'e' then 23
      else if s[1] == 'r' then 41
      else if s[1] == 'o' then 52
      else 78
    case 13 => if s[0] == 'r' then 24
      else if s[0] == 'e' then 43
      else if s[0] == 'c' then if s[5] == 'e' then 48
        else 49
      else 82
    case 14 => if s[5] == ' ' then if s[6] == 'e' then 4
        else 5
      else if s[5] == 'c' then 30
      else if s[5] == 'a' then 38
      else 44
    case 15 => if s[3] == 'c' then 18
      else if s[3] == 'n' then 57
      else if s[3] == 't' then 69
      else if s[3] == 'u' then 72
      else 94
    case 16 => if s[8] == 'n' then 16
      else if s[8] == 'e' then 19
      else if s[8] == 'c' then 53
      else if s[8] == ' ' then 56
      else 75
    case 17 => if s[11] == 'i' then 0
      else if s[11] == 'g' then 12
      else if s[11] == 'u' then 31
      else if s[11] == 'r' then 51
      else if s[11] == 'o' then 58
      else if s[11] == ' ' then 59
      else 83
    case 18 => if s[10] == 'o' then 10
      else if s[10] == ' ' then 11
      else if s[10] == 'd' then 17
      else if s[10] == 'a' then 29
      else if s[10] == 't' then 36
      else 70
    case 19 => if s[5] == 'a' then 26
      else if s[5] == 'e' then 47
      else 50
    case 20 => if s[15] == 'e' then if s[1] == 'x' then 2
        else 64
      else if s[15] == 'ú' then 7
      else if s[15] == ' ' then 22
      else if s[15] == 'p' then 25
      else if s[15] == 't' then 32
      else 46
    case 21 => if s[12] == 'l' then 35
      else if s[12] == 'f' then 40
      else if s[12] == 'b' then 66
      else 74
    case 22 => 33
    case 25 => 3
    case 26 => if s[0] == 'f' then 1
      else 42
    case 27 => 15
    case 28 => 60
    case 29 => if s[15] == 'c' then 20
      else if s[15] == 'o' then 34
      else if s[15] == 'í' then 45
      else 55
    case 31 => 39
    case 33 => 54
    case _ => -1
  }

  /** The two checks made on every entry. */
  datatype Check = Keys | Spanish

  /**
   * Entry `e` at position `i` passes check `c`: its key leads back to `i`
   * and is its English name, or its lower-cased Spanish name leads back to `i`.
   */
  predicate Holds(c: Check, e: Entry, i: int)
  {
    match c
    case Keys => KeyIndex(e.key) == i && e.en == e.key
    case Spanish => SpanishIndex(Lower(e.es)) == i
  }

  /** The entries of `t` from `k` on, placed from position `off`, pass check `c`, one by one. */
  predicate HoldsFrom(c: Check, t: seq<Entry>, off: int, k: nat)
    decreases |t| - k
  {
    k >= |t| || (Holds(c, t[k], off + k) && HoldsFrom(c, t, off, k + 1))
  }

  /** Every entry of `t`, placed from position `off`, passes check `c`. */
  ghost predicate HoldsAll(c: Check, t: seq<Entry>, off: int)
  {
    forall i :: 0 <= i < |t| ==> Holds(c, t[i], off + i)
  }

  lemma {:induction false} HoldsFromSound(c: Check, t: seq<Entry>, off: int, k: nat)
    requires HoldsFrom(c, t, off, k)
    ensures forall i :: k <= i < |t| ==> Holds(c, t[i], off + i)
    decreases |t| - k
  {
    if k < |t| {
      HoldsFromSound(c, t, off, k + 1);
    }
  }

  /** Two runs that pass a check, placed one after the other, pass it together. */
  lemma HoldsJoin(c: Check, a: seq<Entry>, b: seq<Entry>, off: int)
    requires HoldsAll(c, a, off) && HoldsAll(c, b, off + |a|)
    ensures HoldsAll(c, a + b, off)
  {
    forall i | 0 <= i < |a + b| ensures Holds(c, (a + b)[i], off + i) {
      if i >= |a| {
        assert (a + b)[i] == b[i - |a|];
      }
    }
  }

  lemma KeysBlock0() ensures HoldsAll(Keys, Chunk0(), 0) { assert HoldsFrom(Keys, Chunk0(), 0, 0); HoldsFromSound(Keys, Chunk0(), 0, 0); }
  lemma KeysBlock1() ensures HoldsAll(Keys, Chunk1(), 5) { assert HoldsFrom(Keys, Chunk1(), 5, 0); HoldsFromSound(Keys, Chunk1(), 5, 0); }
  lemma KeysBlock2() ensures HoldsAll(Keys, Chunk2(), 10) { assert HoldsFrom(Keys, Chunk2(), 10, 0); HoldsFromSound(Keys, Chunk2(), 10, 0); }
  lemma KeysBlock3() ensures HoldsAll(Keys, Chunk3(), 15) { assert HoldsFrom(Keys, Chunk3(), 15, 0); HoldsFromSound(Keys, Chunk3(), 15, 0); }
  lemma KeysBlock4() ensures HoldsAll(Keys, Chunk4(), 20) { assert HoldsFrom(Keys, Chunk4(), 20, 0); HoldsFromSound(Keys, Chunk4(), 20, 0); }
  lemma KeysBlock5() ensures HoldsAll(Keys, Chunk5(), 25) { assert HoldsFrom(Keys, Chunk5(), 25, 0); HoldsFromSound(Keys, Chunk5(), 25, 0); }
  lemma KeysBlock6() ensures HoldsAll(Keys, Chunk6(), 30) { assert HoldsFrom(Keys, Chunk6(), 30, 0); HoldsFromSound(Keys, Chunk6(), 30, 0); }
  lemma KeysBlock7() ensures HoldsAll(Keys, Chunk7(), 35) { assert HoldsFrom(Keys, Chunk7(), 35, 0); HoldsFromSound(Keys, Chunk7(), 35, 0); }
  lemma KeysBlock8() ensures HoldsAll(Keys, Chunk8(), 40) { assert HoldsFrom(Keys, Chunk8(), 40, 0); HoldsFromSound(Keys, Chunk8(), 40, 0); }
  lemma KeysBlock9() ensures HoldsAll(Keys, Chunk9(), 45) { assert HoldsFrom(Keys, Chunk9(), 45, 0); HoldsFromSound(Keys, Chunk9(), 45, 0); }
  lemma KeysBlock10() ensures HoldsAll(Keys, Chunk10(), 50) { assert HoldsFrom(Keys, Chunk10(), 50, 0); HoldsFromSound(Keys, Chunk10(), 50, 0); }
  lemma KeysBlock11() ensures HoldsAll(Keys, Chunk11(), 55) { assert HoldsFrom(Keys, Chunk11(), 55, 0); HoldsFromSound(Keys, Chunk11(), 55, 0); }
  lemma KeysBlock12() ensures HoldsAll(Keys, Chunk12(), 60) { assert HoldsFrom(Keys, Chunk12(), 60, 0); HoldsFromSound(Keys, Chunk12(), 60, 0); }
  lemma KeysBlock13() ensures HoldsAll(Keys, Chunk13(), 65) { assert HoldsFrom(Keys, Chunk13(), 65, 0); HoldsFromSound(Keys, Chunk13(), 65, 0); }
  lemma KeysBlock14() ensures HoldsAll(Keys, Chunk14(), 70) { assert HoldsFrom(Keys, Chunk14(), 70, 0); HoldsFromSound(Keys, Chunk14(), 70, 0); }
  lemma KeysBlock15() ensures HoldsAll(Keys, Chunk15(), 75) { assert HoldsFrom(Keys, Chunk15(), 75, 0); HoldsFromSound(Keys, Chunk15(), 75, 0); }
  lemma KeysBlock16() ensures HoldsAll(Keys, Chunk16(), 80) { assert HoldsFrom(Keys, Chunk16(), 80, 0); HoldsFromSound(Keys, Chunk16(), 80, 0); }
  lemma KeysBlock17() ensures HoldsAll(Keys, Chunk17(), 85) { assert HoldsFrom(Keys, Chunk17(), 85, 0); HoldsFromSound(Keys, Chunk17(), 85, 0); }
  lemma KeysBlock18() ensures HoldsAll(Keys, Chunk18(), 90) { assert HoldsFrom(Keys, Chunk18(), 90, 0); HoldsFromSound(Keys, Chunk18(), 90, 0); }
  lemma KeysBlock19() ensures HoldsAll(Keys, Chunk19(), 95) { assert HoldsFrom(Keys, Chunk19(), 95, 0); HoldsFromSound(Keys, Chunk19(), 95, 0); }

  lemma SpanishBlock0() ensures HoldsAll(Spanish, Chunk0(), 0) { assert HoldsFrom(Spanish, Chunk0(), 0, 0); HoldsFromSound(Spanish, Chunk0(), 0, 0); }
  lemma SpanishBlock1() ensures HoldsAll(Spanish, Chunk1(), 5) { assert HoldsFrom(Spanish, Chunk1(), 5, 0); HoldsFromSound(Spanish, Chunk1(), 5, 0); }
  lemma SpanishBlock2() ensures HoldsAll(Spanish, Chunk2(), 10) { assert HoldsFrom(Spanish, Chunk2(), 10, 0); HoldsFromSound(Spanish, Chunk2(), 10, 0); }
  lemma SpanishBlock3() ensures HoldsAll(Spanish, Chunk3(), 15) { assert HoldsFrom(Spanish, Chunk3(), 15, 0); HoldsFromSound(Spanish, Chunk3(), 15, 0); }
  lemma SpanishBlock4() ensures HoldsAll(Spanish, Chunk4(), 20) { assert HoldsFrom(Spanish, Chunk4(), 20, 0); HoldsFromSound(Spanish, Chunk4(), 20, 0); }
  lemma SpanishBlock5() ensures HoldsAll(Spanish, Chunk5(), 25) { assert HoldsFrom(Spanish, Chunk5(), 25, 0); HoldsFromSound(Spanish, Chunk5(), 25, 0); }
  lemma SpanishBlock6() ensures HoldsAll(Spanish, Chunk6(), 30) { assert HoldsFrom(Spanish, Chunk6(), 30, 0); HoldsFromSound(Spanish, Chunk6(), 30, 0); }
  lemma SpanishBlock7() ensures HoldsAll(Spanish, Chunk7(), 35) { assert HoldsFrom(Spanish, Chunk7(), 35, 0); HoldsFromSound(Spanish, Chunk7(), 35, 0); }
  lemma SpanishBlock8() ensures HoldsAll(Spanish, Chunk8(), 40) { assert HoldsFrom(Spanish, Chunk8(), 40, 0); HoldsFromSound(Spanish, Chunk8(), 40, 0); }
  lemma SpanishBlock9() ensures HoldsAll(Spanish, Chunk9(), 45) { assert HoldsFrom(Spanish, Chunk9(), 45, 0); HoldsFromSound(Spanish, Chunk9(), 45, 0); }
  lemma SpanishBlock10() ensures HoldsAll(Spanish, Chunk10(), 50) { assert HoldsFrom(Spanish, Chunk10(), 50, 0); HoldsFromSound(Spanish, Chunk10(), 50, 0); }
  lemma SpanishBlock11() ensures HoldsAll(Spanish, Chunk11(), 55) { assert HoldsFrom(Spanish, Chunk11(), 55, 0); HoldsFromSound(Spanish, Chunk11(), 55, 0); }
  lemma SpanishBlock12() ensures HoldsAll(Spanish, Chunk12(), 60) { assert HoldsFrom(Spanish, Chunk12(), 60, 0); HoldsFromSound(Spanish, Chunk12(), 60, 0); }
  lemma SpanishBlock13() ensures HoldsAll(Spanish, Chunk13(), 65) { assert HoldsFrom(Spanish, Chunk13(), 65, 0); HoldsFromSound(Spanish, Chunk13(), 65, 0); }
  lemma SpanishBlock14() ensures HoldsAll(Spanish, Chunk14(), 70) { assert HoldsFrom(Spanish, Chunk14(), 70, 0); HoldsFromSound(Spanish, Chunk14(), 70, 0); }
  lemma SpanishBlock15() ensures HoldsAll(Spanish, Chunk15(), 75) { assert HoldsFrom(Spanish, Chunk15(), 75, 0); HoldsFromSound(Spanish, Chunk15(), 75, 0); }
  lemma SpanishBlock16() ensures HoldsAll(Spanish, Chunk16(), 80) { assert HoldsFrom(Spanish, Chunk16(), 80, 0); HoldsFromSound(Spanish, Chunk16(), 80, 0); }
  lemma SpanishBlock17() ensures HoldsAll(Spanish, Chunk17(), 85) { assert HoldsFrom(Spanish, Chunk17(), 85, 0); HoldsFromSound(Spanish, Chunk17(), 85, 0); }
  lemma SpanishBlock18() ensures HoldsAll(Spanish, Chunk18(), 90) { assert HoldsFrom(Spanish, Chunk18(), 90, 0); HoldsFromSound(Spanish, Chunk18(), 90, 0); }
  lemma SpanishBlock19() ensures HoldsAll(Spanish, Chunk19(), 95) { assert HoldsFrom(Spanish, Chunk19(), 95, 0); HoldsFromSound(Spanish, Chunk19(), 95, 0); }

  lemma KeysPrefix0() ensures HoldsAll(Keys, Chunk0(), 0) { KeysBlock0(); }
  lemma KeysPrefix1() ensures HoldsAll(Keys, Chunk0() + Chunk1(), 0) { KeysPrefix0(); KeysBlock1(); HoldsJoin(Keys, Chunk0(), Chunk1(), 0); }
  lemma KeysPrefix2() ensures HoldsAll(Keys, Chunk0() + Chunk1() + Chunk2(), 0) { KeysPrefix1(); KeysBlock2(); HoldsJoin(Keys, Chunk0() + Chunk1(), Chunk2(), 0); }
  lemma KeysPrefix3() ensures HoldsAll(Keys, Chunk0() + Chunk1() + Chunk2() + Chunk3(), 0) { KeysPrefix2(); KeysBlock3(); HoldsJoin(Keys, Chunk0() + Chunk1() + Chunk2(), Chunk3(), 0); }
  lemma KeysPrefix4() ensures HoldsAll(Keys, Chunk0() + Chunk1() + Chunk2() + Chunk3() + Chunk4(), 0) { KeysPrefix3(); KeysBlock4(); HoldsJoin(Keys, Chunk0() + Chunk1() + Chunk2() + Chunk3(), Chunk4(), 0); }
  lemma KeysPrefix5() ensures HoldsAll(Keys, Chunk0() + Chunk1() + Chunk2() + Chunk3() + Chunk4() + Chunk5(), 0) { KeysPrefix4(); KeysBlock5(); HoldsJoin(Keys, Chunk0() + Chunk1() + Chunk2() + Chunk3() + Chunk4(), Chunk5(), 0); }
  lemma KeysPrefix6() ensures HoldsAll(Keys, Chunk0() + Chunk1() + Chunk2() + Chunk3() + Chunk4() + Chunk5() + Chunk6(), 0) { KeysPrefix5(); KeysBlock6(); HoldsJoin(Keys, Chunk0() + Chunk1() + Chunk2() + Chunk3() + Chunk4() + Chunk5(), Chunk6(), 0); }
  lemma KeysPrefix7() ensures HoldsAll(Keys, Chunk0() + Chunk1() + Chunk2() + Chunk3() + Chunk4() + Chunk5() + Chunk6() + Chunk7(), 0) { KeysPrefix6(); KeysBlock7(); HoldsJoin(Keys, Chunk0() + Chunk1() + Chunk2() + Chunk3() + Chunk4() + Chunk5() + Chunk6(), Chunk7(), 0); }
  lemma KeysPrefix8() ensures HoldsAll(Keys, Chunk0() + Chunk1() + Chunk2() + Chunk3() + Chunk4() + Chunk5() + Chunk6() + Chunk7() + Chunk8(), 0) { KeysPrefix7(); KeysBlock8(); HoldsJoin(Keys, Chunk0() + Chunk1() + Chunk2() + Chunk3() + Chunk4() + Chunk5() + Chunk6() + Chunk7(), Chunk8(), 0); }
  lemma KeysPrefix9() ensures HoldsAll(Keys, Chunk0() + Chunk1() + Chunk2() + Chunk3() + Chunk4() + Chunk5() + Chunk6() + Chunk7() + Chunk8() + Chunk9(), 0) { KeysPrefix8(); KeysBlock9(); HoldsJoin(Keys, Chunk0() + Chunk1() + Chunk2() + Chunk3() + Chunk4() + Chunk5() + Chunk6() + Chunk7() + Chunk8(), Chunk9(), 0); }
  lemma KeysPrefix10() ensures HoldsAll(Keys, Chunk0() + Chunk1() + Chunk2() + Chunk3() + Chunk4() + Chunk5() + Chunk6() + Chunk7() + Chunk8() + Chunk9() + Chunk10(), 0) { KeysPrefix9(); KeysBlock10(); HoldsJoin(Keys, Chunk0() + Chunk1() + Chunk2() + Chunk3() + Chunk4() + Chunk5() + Chunk6() + Chunk7() + Chunk8() + Chunk9(), Chunk10(), 0); }
  lemma KeysPrefix11() ensures HoldsAll(Keys, Chunk0() + Chunk1() + Chunk2() + Chunk3() + Chunk4() + Chunk5() + Chunk6() + Chunk7() + Chunk8() + Chunk9() + Chunk10() + Chunk11(), 0) { KeysPrefix10(); KeysBlock11(); HoldsJoin(Keys, Chunk0() + Chunk1() + Chunk2() + Chunk3() + Chunk4() + Chunk5() + Chunk6() + Chunk7() + Chunk8() + Chunk9() + Chunk10(), Chunk11(), 0); }
  lemma KeysPrefix12() ensures HoldsAll(Keys, Chunk0() + Chunk1() + Chunk2() + Chunk3() + Chunk4() + Chunk5() + Chunk6() + Chunk7() + Chunk8() + Chunk9() + Chunk10() + Chunk11() + Chunk12(), 0) { KeysPrefix11(); KeysBlock12(); HoldsJoin(Keys, Chunk0() + Chunk1() + Chunk2() + Chunk3() + Chunk4() + Chunk5() + Chunk6() + Chunk7() + Chunk8() + Chunk9() + Chunk10() + Chunk11(), Chunk12(), 0); }
  lemma KeysPrefix13() ensures HoldsAll(Keys, Chunk0() + Chunk1() + Chunk2() + Chunk3() + Chunk4() + Chunk5() + Chunk6() + Chunk7() + Chunk8() + Chunk9() + Chunk10() + Chunk11() + Chunk12() + Chunk13(), 0) { KeysPrefix12(); KeysBlock13(); HoldsJoin(Keys, Chunk0() + Chunk1() + Chunk2() + Chunk3() + Chunk4() + Chunk5() + Chunk6() + Chunk7() + Chunk8() + Chunk9() + Chunk10() + Chunk11() + Chunk12(), Chunk13(), 0); }
  lemma KeysPrefix14() ensures HoldsAll(Keys, Chunk0() + Chunk1() + Chunk2() + Chunk3() + Chunk4() + Chunk5() + Chunk6() + Chunk7() + Chunk8() + Chunk9() + Chunk10() + Chunk11() + Chunk12() + Chunk13() + Chunk14(), 0) { KeysPrefix13(); KeysBlock14(); HoldsJoin(Keys, Chunk0() + Chunk1() + Chunk2() + Chunk3() + Chunk4() + Chunk5() + Chunk6() + Chunk7() + Chunk8() + Chunk9() + Chunk10() + Chunk11() + Chunk12() + Chunk13(), Chunk14(), 0); }
  lemma KeysPrefix15() ensures HoldsAll(Keys, Chunk0() + Chunk1() + Chunk2() + Chunk3() + Chunk4() + Chunk5() + Chunk6() + Chunk7() + Chunk8() + Chunk9() + Chunk10() + Chunk11() + Chunk12() + Chunk13() + Chunk14() + Chunk15(), 0) { KeysPrefix14(); KeysBlock15(); HoldsJoin(Keys, Chunk0() + Chunk1() + Chunk2() + Chunk3() + Chunk4() + Chunk5() + Chunk6() + Chunk7() + Chunk8() + Chunk9() + Chunk10() + Chunk11() + Chunk12() + Chunk13() + Chunk14(), Chunk15(), 0); }
  lemma KeysPrefix16() ensures HoldsAll(Keys, Chunk0() + Chunk1() + Chunk2() + Chunk3() + Chunk4() + Chunk5() + Chunk6() + Chunk7() + Chunk8() + Chunk9() + Chunk10() + Chunk11() + Chunk12() + Chunk13() + Chunk14() + Chunk15() + Chunk16(), 0) { KeysPrefix15(); KeysBlock16(); HoldsJoin(Keys, Chunk0() + Chunk1() + Chunk2() + Chunk3() + Chunk4() + Chunk5() + Chunk6() + Chunk7() + Chunk8() + Chunk9() + Chunk10() + Chunk11() + Chunk12() + Chunk13() + Chunk14() + Chunk15(), Chunk16(), 0); }
  lemma KeysPrefix17() ensures HoldsAll(Keys, Chunk0() + Chunk1() + Chunk2() + Chunk3() + Chunk4() + Chunk5() + Chunk6() + Chunk7() + Chunk8() + Chunk9() + Chunk10() + Chunk11() + Chunk12() + Chunk13() + Chunk14() + Chunk15() + Chunk16() + Chunk17(), 0) { KeysPrefix16(); KeysBlock17(); HoldsJoin(Keys, Chunk0() + Chunk1() + Chunk2() + Chunk3() + Chunk4() + Chunk5() + Chunk6() + Chunk7() + Chunk8() + Chunk9() + Chunk10() + Chunk11() + Chunk12() + Chunk13() + Chunk14() + Chunk15() + Chunk16(), Chunk17(), 0); }
  lemma KeysPrefix18() ensures HoldsAll(Keys, Chunk0() + Chunk1() + Chunk2() + Chunk3() + Chunk4() + Chunk5() + Chunk6() + Chunk7() + Chunk8() + Chunk9() + Chunk10() + Chunk11() + Chunk12() + Chunk13() + Chunk14() + Chunk15() + Chunk16() + Chunk17() + Chunk18(), 0) { KeysPrefix17(); KeysBlock18(); HoldsJoin(Keys, Chunk0() + Chunk1() + Chunk2() + Chunk3() + Chunk4() + Chunk5() + Chunk6() + Chunk7() + Chunk8() + Chunk9() + Chunk10() + Chunk11() + Chunk12() + Chunk13() + Chunk14() + Chunk15() + Chunk16() + Chunk17(), Chunk18(), 0); }
  lemma KeysPrefix19() ensures HoldsAll(Keys, Chunk0() + Chunk1() + Chunk2() + Chunk3() + Chunk4() + Chunk5() + Chunk6() + Chunk7() + Chunk8() + Chunk9() + Chunk10() + Chunk11() + Chunk12() + Chunk13() + Chunk14() + Chunk15() + Chunk16() + Chunk17() + Chunk18() + Chunk19(), 0) { KeysPrefix18(); KeysBlock19(); HoldsJoin(Keys, Chunk0() + Chunk1() + Chunk2() + Chunk3() + Chunk4() + Chunk5() + Chunk6() + Chunk7() + Chunk8() + Chunk9() + Chunk10() + Chunk11() + Chunk12() + Chunk13() + Chunk14() + Chunk15() + Chunk16() + Chunk17() + Chunk18(), Chunk19(), 0); }

  lemma SpanishPrefix0() ensures HoldsAll(Spanish, Chunk0(), 0) { SpanishBlock0(); }
  lemma SpanishPrefix1() ensures HoldsAll(Spanish, Chunk0() + Chunk1(), 0) { SpanishPrefix0(); SpanishBlock1(); HoldsJoin(Spanish, Chunk0(), Chunk1(), 0); }
  lemma SpanishPrefix2() ensures HoldsAll(Spanish, Chunk0() + Chunk1() + Chunk2(), 0) { SpanishPrefix1(); SpanishBlock2(); HoldsJoin(Spanish, Chunk0() + Chunk1(), Chunk2(), 0); }
  lemma SpanishPrefix3() ensures HoldsAll(Spanish, Chunk0() + Chunk1() + Chunk2() + Chunk3(), 0) { SpanishPrefix2(); SpanishBlock3(); HoldsJoin(Spanish, Chunk0() + Chunk1() + Chunk2(), Chunk3(), 0); }
  lemma SpanishPrefix4() ensures HoldsAll(Spanish, Chunk0() + Chunk1() + Chunk2() + Chunk3() + Chunk4(), 0) { SpanishPrefix3(); SpanishBlock4(); HoldsJoin(Spanish, Chunk0() + Chunk1() + Chunk2() + Chunk3(), Chunk4(), 0); }
  lemma SpanishPrefix5() ensures HoldsAll(Spanish, Chunk0() + Chunk1() + Chunk2() + Chunk3() + Chunk4() + Chunk5(), 0) { SpanishPrefix4(); SpanishBlock5(); HoldsJoin(Spanish, Chunk0() + Chunk1() + Chunk2() + Chunk3() + Chunk4(), Chunk5(), 0); }
  lemma SpanishPrefix6() ensures HoldsAll(Spanish, Chunk0() + Chunk1() + Chunk2() + Chunk3() + Chunk4() + Chunk5() + Chunk6(), 0) { SpanishPrefix5(); SpanishBlock6(); HoldsJoin(Spanish, Chunk0() + Chunk1() + Chunk2() + Chunk3() + Chunk4() + Chunk5(), Chunk6(), 0); }
  lemma SpanishPrefix7() ensures HoldsAll(Spanish, Chunk0() + Chunk1() + Chunk2() + Chunk3() + Chunk4() + Chunk5() + Chunk6() + Chunk7(), 0) { SpanishPrefix6(); SpanishBlock7(); HoldsJoin(Spanish, Chunk0() + Chunk1() + Chunk2() + Chunk3() + Chunk4() + Chunk5() + Chunk6(), Chunk7(), 0); }
  lemma SpanishPrefix8() ensures HoldsAll(Spanish, Chunk0() + Chunk1() + Chunk2() + Chunk3() + Chunk4() + Chunk5() + Chunk6() + Chunk7() + Chunk8(), 0) { SpanishPrefix7(); SpanishBlock8(); HoldsJoin(Spanish, Chunk0() + Chunk1() + Chunk2() + Chunk3() + Chunk4() + Chunk5() + Chunk6() + Chunk7(), Chunk8(), 0); }
  lemma SpanishPrefix9() ensures HoldsAll(Spanish, Chunk0() + Chunk1() + Chunk2() + Chunk3() + Chunk4() + Chunk5() + Chunk6() + Chunk7() + Chunk8() + Chunk9(), 0) { SpanishPrefix8(); SpanishBlock9(); HoldsJoin(Spanish, Chunk0() + Chunk1() + Chunk2() + Chunk3() + Chunk4() + Chunk5() + Chunk6() + Chunk7() + Chunk8(), Chunk9(), 0); }
  lemma SpanishPrefix10() ensures HoldsAll(Spanish, Chunk0() + Chunk1() + Chunk2() + Chunk3() + Chunk4() + Chunk5() + Chunk6() + Chunk7() + Chunk8() + Chunk9() + Chunk10(), 0) { SpanishPrefix9(); SpanishBlock10(); HoldsJoin(Spanish, Chunk0() + Chunk1() + Chunk2() + Chunk3() + Chunk4() + Chunk5() + Chunk6() + Chunk7() + Chunk8() + Chunk9(), Chunk10(), 0); }
  lemma SpanishPrefix11() ensures HoldsAll(Spanish, Chunk0() + Chunk1() + Chunk2() + Chunk3() + Chunk4() + Chunk5() + Chunk6() + Chunk7() + Chunk8() + Chunk9() + Chunk10() + Chunk11(), 0) { SpanishPrefix10(); SpanishBlock11(); HoldsJoin(Spanish, Chunk0() + Chunk1() + Chunk2() + Chunk3() + Chunk4() + Chunk5() + Chunk6() + Chunk7() + Chunk8() + Chunk9() + Chunk10(), Chunk11(), 0); }
  lemma SpanishPrefix12() ensures HoldsAll(Spanish, Chunk0() + Chunk1() + Chunk2() + Chunk3() + Chunk4() + Chunk5() + Chunk6() + Chunk7() + Chunk8() + Chunk9() + Chunk10() + Chunk11() + Chunk12(), 0) { SpanishPrefix11(); SpanishBlock12(); HoldsJoin(Spanish, Chunk0() + Chunk1() + Chunk2() + Chunk3() + Chunk4() + Chunk5() + Chunk6() + Chunk7() + Chunk8() + Chunk9() + Chunk10() + Chunk11(), Chunk12(), 0); }
  lemma SpanishPrefix13() ensures HoldsAll(Spanish, Chunk0() + Chunk1() + Chunk2() + Chunk3() + Chunk4() + Chunk5() + Chunk6() + Chunk7() + Chunk8() + Chunk9() + Chunk10() + Chunk11() + Chunk12() + Chunk13(), 0) { SpanishPrefix12(); SpanishBlock13(); HoldsJoin(Spanish, Chunk0() + Chunk1() + Chunk2() + Chunk3() + Chunk4() + Chunk5() + Chunk6() + Chunk7() + Chunk8() + Chunk9() + Chunk10() + Chunk11() + Chunk12(), Chunk13(), 0); }
  lemma SpanishPrefix14() ensures HoldsAll(Spanish, Chunk0() + Chunk1() + Chunk2() + Chunk3() + Chunk4() + Chunk5() + Chunk6() + Chunk7() + Chunk8() + Chunk9() + Chunk10() + Chunk11() + Chunk12() + Chunk13() + Chunk14(), 0) { SpanishPrefix13(); SpanishBlock14(); HoldsJoin(Spanish, Chunk0() + Chunk1() + Chunk2() + Chunk3() + Chunk4() + Chunk5() + Chunk6() + Chunk7() + Chunk8() + Chunk9() + Chunk10() + Chunk11() + Chunk12() + Chunk13(), Chunk14(), 0); }
  lemma SpanishPrefix15() ensures HoldsAll(Spanish, Chunk0() + Chunk1() + Chunk2() + Chunk3() + Chunk4() + Chunk5() + Chunk6() + Chunk7() + Chunk8() + Chunk9() + Chunk10() + Chunk11() + Chunk12() + Chunk13() + Chunk14() + Chunk15(), 0) { SpanishPrefix14(); SpanishBlock15(); HoldsJoin(Spanish, Chunk0() + Chunk1() + Chunk2() + Chunk3() + Chunk4() + Chunk5() + Chunk6() + Chunk7() + Chunk8() + Chunk9() + Chunk10() + Chunk11() + Chunk12() + Chunk13() + Chunk14(), Chunk15(), 0); }
  lemma SpanishPrefix16() ensures HoldsAll(Spanish, Chunk0() + Chunk1() + Chunk2() + Chunk3() + Chunk4() + Chunk5() + Chunk6() + Chunk7() + Chunk8() + Chunk9() + Chunk10() + Chunk11() + Chunk12() + Chunk13() + Chunk14() + Chunk15() + Chunk16(), 0) { SpanishPrefix15(); SpanishBlock16(); HoldsJoin(Spanish, Chunk0() + Chunk1() + Chunk2() + Chunk3() + Chunk4() + Chunk5() + Chunk6() + Chunk7() + Chunk8() + Chunk9() + Chunk10() + Chunk11() + Chunk12() + Chunk13() + Chunk14() + Chunk15(), Chunk16(), 0); }
  lemma SpanishPrefix17() ensures HoldsAll(Spanish, Chunk0() + Chunk1() + Chunk2() + Chunk3() + Chunk4() + Chunk5() + Chunk6() + Chunk7() + Chunk8() + Chunk9() + Chunk10() + Chunk11() + Chunk12() + Chunk13() + Chunk14() + Chunk15() + Chunk16() + Chunk17(), 0) { SpanishPrefix16(); SpanishBlock17(); HoldsJoin(Spanish, Chunk0() + Chunk1() + Chunk2() + Chunk3() + Chunk4() + Chunk5() + Chunk6() + Chunk7() + Chunk8() + Chunk9() + Chunk10() + Chunk11() + Chunk12() + Chunk13() + Chunk14() + Chunk15() + Chunk16(), Chunk17(), 0); }
  lemma SpanishPrefix18() ensures HoldsAll(Spanish, Chunk0() + Chunk1() + Chunk2() + Chunk3() + Chunk4() + Chunk5() + Chunk6() + Chunk7() + Chunk8() + Chunk9() + Chunk10() + Chunk11() + Chunk12() + Chunk13() + Chunk14() + Chunk15() + Chunk16() + Chunk17() + Chunk18(), 0) { SpanishPrefix17(); SpanishBlock18(); HoldsJoin(Spanish, Chunk0() + Chunk1() + Chunk2() + Chunk3() + Chunk4() + Chunk5() + Chunk6() + Chunk7() + Chunk8() + Chunk9() + Chunk10() + Chunk11() + Chunk12() + Chunk13() + Chunk14() + Chunk15() + Chunk16() + Chunk17(), Chunk18(), 0); }
  lemma SpanishPrefix19() ensures HoldsAll(Spanish, Chunk0() + Chunk1() + Chunk2() + Chunk3() + Chunk4() + Chunk5() + Chunk6() + Chunk7() + Chunk8() + Chunk9() + Chunk10() + Chunk11() + Chunk12() + Chunk13() + Chunk14() + Chunk15() + Chunk16() + Chunk17() + Chunk18() + Chunk19(), 0) { SpanishPrefix18(); SpanishBlock19(); HoldsJoin(Spanish, Chunk0() + Chunk1() + Chunk2() + Chunk3() + Chunk4() + Chunk5() + Chunk6() + Chunk7() + Chunk8() + Chunk9() + Chunk10() + Chunk11() + Chunk12() + Chunk13() + Chunk14() + Chunk15() + Chunk16() + Chunk17() + Chunk18(), Chunk19(), 0); }

  /** Every entry of the dictionary passes both checks. */
  lemma TableChecked()
    ensures |Table()| == 98
    ensures HoldsAll(Keys, Table(), 0) && HoldsAll(Spanish, Table(), 0)
  {
    KeysPrefix19();
    SpanishPrefix19();
  }

  /** The two checks give the properties the lookups rely on. */
  lemma WellFormedFromChecks(t: seq<Entry>)
    requires HoldsAll(Keys, t, 0) && HoldsAll(Spanish, t, 0)
    ensures WellFormed(t)
  {
    forall i, j | 0 <= i < |t| && 0 <= j < |t| && EntryKey(t[i]) == EntryKey(t[j]) ensures i == j {
      assert Holds(Keys, t[i], i) && Holds(Keys, t[j], j);
    }
    forall i, j | 0 <= i < |t| && 0 <= j < |t| && SpanishKey(t[i]) == SpanishKey(t[j]) ensures i == j {
      assert Holds(Spanish, t[i], i) && Holds(Spanish, t[j], j);
    }
    forall i | 0 <= i < |t| ensures t[i].en == t[i].key {
      assert Holds(Keys, t[i], i);
    }
  }

  /**
   * The machine dictionary has 98 entries, no two share a key, no two have
   * Spanish names that differ only in case, and every English name is the key.
   */
  lemma TableWellFormed()
    ensures |Table()| == 98 && WellFormed(Table())
  {
    TableChecked();
    WellFormedFromChecks(Table());
  }

  /** A known machine is shown with its entry's name in the chosen language. */
  lemma TranslateKnown(i: nat, lang: Language)
    requires i < |Table()|
    ensures TranslateMachine(Table()[i].key, lang) == Name(Table()[i], lang)
  {
    TableWellFormed();
    TranslateKnownIn(Table(), i, lang);
  }

  /** Data is stored in English, so showing it in English changes nothing. */
  lemma TranslateEnglishIdentity(name: string)
    ensures TranslateMachine(name, En) == name
  {
    TableWellFormed();
    TranslateEnglishIn(Table(), name);
  }

  /** A Spanish name typed in any case leads back to its entry's key. */
  lemma FindEnglishNameKnown(i: nat, displayName: string)
    requires i < |Table()| && Lower(displayName) == Lower(Table()[i].es)
    ensures FindEnglishName(displayName, Es) == Table()[i].key
  {
    TableWellFormed();
    FindEnglishKnownIn(Table(), i, displayName);
  }

  /** Showing a known machine in Spanish and reading the shown name back gives the stored name. */
  lemma SpanishRoundTrip(i: nat)
    requires i < |Table()|
    ensures FindEnglishName(TranslateMachine(Table()[i].key, Es), Es) == Table()[i].key
  {
    TableWellFormed();
    assert KnownIn(Table(), Table()[i].key);
    RoundTripIn(Table(), Table()[i].key, Es);
  }

  /** `name` is the key of an entry of the machine dictionary. */
  ghost predicate Known(name: string)
  {
    KnownIn(Table(), name)
  }

  /** Showing a known machine in either language and reading the shown name back gives the stored name. */
  lemma MachineRoundTrip(name: string, lang: Language)
    ensures Known(name) ==> FindEnglishName(TranslateMachine(name, lang), lang) == name
  {
    if Known(name) {
      TableWellFormed();
      RoundTripIn(Table(), name, lang);
    }
  }

  /** Machine names typed in Spanish that differ only in case are read back as the same stored name. */
  lemma FindEnglishNameIgnoresCase(x: string, y: string)
    requires Lower(x) == Lower(y)
    ensures (exists i :: 0 <= i < |Table()| && Lower(Table()[i].es) == Lower(x)) ==> FindEnglishName(x, Es) == FindEnglishName(y, Es)
  {
    FindEnglishIgnoresCase(Table(), x, y);
  }

  /** The same round trip in English, for every name, known or custom. */
  lemma EnglishRoundTrip(name: string)
    ensures FindEnglishName(TranslateMachine(name, En), En) == name
  {
    TranslateEnglishIdentity(name);
  }

  // A JavaScript object literal inherits the properties of Object.prototype,
  // so `machineTranslations[englishName]` is also defined, and truthy, for
  // these names; the property `en` or `es` of what it finds is `undefined`.

  /** The properties every object inherits from `Object.prototype`. */
  predicate Inherited(name: string)
  {
    || name == "constructor" || name == "__proto__"
    || name == "__defineGetter__" || name == "__defineSetter__"
    || name == "__lookupGetter__" || name == "__lookupSetter__"
    || name == "hasOwnProperty" || name == "isPrototypeOf"
    || name == "propertyIsEnumerable" || name == "toLocaleString"
    || name == "toString" || name == "valueOf"
  }

  /**
   * `translateMachine` as written, over the dictionary `t`, with `None`
   * standing for `undefined`: an inherited property name is found by the
   * lookup, and the function returns its missing `en` or `es` instead of the name.
   */
  function TranslateAsWritten(t: seq<Entry>, name: string, lang: Language): (r: Option<string>)
    ensures r.None? ==> Inherited(name)
    ensures r.None? <==> Inherited(name) && forall i :: 0 <= i < |t| ==> t[i].key != name
  {
    match FindId(t, EntryKey, name)
    case Some(e) => Some(Name(e, lang))
    case None => if Inherited(name) then None else Some(name)
  }

  /** `translateMachine` as written, on the machine dictionary. */
  function TranslateMachineAsWritten(name: string, lang: Language): Option<string>
  {
    TranslateAsWritten(Table(), name, lang)
  }

  /** A name the key tree sends to no position is the key of no entry. */
  lemma NotAKey(n: string)
    requires KeyIndex(n) == -1
    ensures forall i :: 0 <= i < |Table()| ==> Table()[i].key != n
  {
    TableChecked();
    forall i | 0 <= i < |Table()| ensures Table()[i].key != n {
      assert Holds(Keys, Table()[i], i);
    }
  }

  // The key tree sends no inherited property name to a position; the
  // names are checked four at a time.

  lemma AccessorNamesRejected(n: string)
    requires || n == "__defineGetter__" || n == "__defineSetter__"
             || n == "__lookupGetter__" || n == "__lookupSetter__"
    ensures KeyIndex(n) == -1
  {
  }

  lemma QueryNamesRejected(n: string)
    requires || n == "constructor" || n == "__proto__"
             || n == "hasOwnProperty" || n == "isPrototypeOf"
    ensures KeyIndex(n) == -1
  {
  }

  lemma ConversionNamesRejected(n: string)
    requires || n == "propertyIsEnumerable" || n == "toLocaleString"
             || n == "toString" || n == "valueOf"
    ensures KeyIndex(n) == -1
  {
  }

  lemma InheritedNameRejected(n: string)
    requires Inherited(n)
    ensures KeyIndex(n) == -1
  {
    if n == "__defineGetter__" || n == "__defineSetter__" || n == "__lookupGetter__" || n == "__lookupSetter__" {
      AccessorNamesRejected(n);
    } else if n == "constructor" || n == "__proto__" || n == "hasOwnProperty" || n == "isPrototypeOf" {
      QueryNamesRejected(n);
    } else {
      ConversionNamesRejected(n);
    }
  }

  /** No inherited property name is a key of the dictionary. */
  lemma InheritedNameNotKey(n: string)
    requires Inherited(n)
    ensures forall i :: 0 <= i < |Table()| ==> Table()[i].key != n
  {
    InheritedNameRejected(n);
    NotAKey(n);
  }

  /**
   * A custom machine named like an inherited property is shown as
   * `undefined` by the code as written, while the own-key lookup of
   * `TranslateMachine` shows its name, as every other custom machine.
   */
  lemma AsWrittenLosesInheritedNames(name: string, lang: Language)
    requires Inherited(name)
    ensures TranslateMachineAsWritten(name, lang) == None
    ensures TranslateMachine(name, lang) == name
  {
    InheritedNameNotKey(name);
  }

  /** For every other name the code as written and the own-key lookup agree, in any dictionary. */
  lemma AsWrittenAgreesElsewhere(t: seq<Entry>, name: string, lang: Language)
    requires !Inherited(name)
    ensures TranslateAsWritten(t, name, lang) == Some(Translate(t, name, lang))
  {
  }

  /** The concrete input: a custom machine called "constructor". */
  lemma ConstructorShownAsUndefined()
    ensures TranslateMachineAsWritten("constructor", Es) == None
    ensures TranslateMachine("constructor", Es) == "constructor"
  {
    AsWrittenLosesInheritedNames("constructor", Es);
  }
}
