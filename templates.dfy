/**
 * The workout template store of src/lib/stores/templates.svelte.ts: a list of
 * templates, newest first, written to local storage (key "fitlog_templates")
 * after every change. A template is made from a logged workout by keeping, for
 * each exercise, its machine, category, weight, sets and repetitions.
 *
 * `generateId()` and `new Date().toISOString()` are passed in as `id` and
 * `createdAt`.
 */
module Templates {
  import opened Wrappers
  import opened Types
  import opened IdLists
  import opened Storage

  function TemplateId(t: WorkoutTemplate): string
  {
    t.id
  }

  /** The template entry kept for one logged exercise. */
  function ToTemplateExercise(e: Exercise): TemplateExercise
  {
    TemplateExercise(e.machine, e.category, e.weight, e.sets, e.reps)
  }

  /**
   * `exercises.map(...)`: one entry per exercise, in the same order, copying
   * the machine and category and taking weight, sets and reps as the defaults.
   */
  function ToTemplateExercises(exercises: seq<Exercise>): (r: seq<TemplateExercise>)
    ensures |r| == |exercises|
    ensures forall i :: 0 <= i < |r| ==>
              && r[i].machine == exercises[i].machine
              && r[i].category == exercises[i].category
              && r[i].defaultWeight == exercises[i].weight
              && r[i].defaultSets == exercises[i].sets
              && r[i].defaultReps == exercises[i].reps
  {
    if exercises == [] then []
    else [ToTemplateExercise(exercises[0])] + ToTemplateExercises(exercises[1..])
  }

  /** Converting a concatenation converts each part. */
  lemma {:induction false} ToTemplateExercisesAppend(a: seq<Exercise>, b: seq<Exercise>)
    ensures ToTemplateExercises(a + b) == ToTemplateExercises(a) + ToTemplateExercises(b)
  {
    if a == [] {
      assert a + b == b;
    } else {
      assert (a + b)[0] == a[0];
      assert (a + b)[1..] == a[1..] + b;
      ToTemplateExercisesAppend(a[1..], b);
    }
  }

  class TemplatesStore {
    const browser: bool
    /** The in-memory list, newest first. */
    var templates: seq<WorkoutTemplate>
    /** Local storage under the key "fitlog_templates". */
    var storage: Slot<WorkoutTemplate>

    /** In a browser, reloading the page would give back exactly the in-memory list. */
    ghost predicate Persisted()
      reads this
    {
      browser ==> Load(browser, storage) == templates
    }

    constructor (browser: bool, storage: Slot<WorkoutTemplate>)
      ensures this.browser == browser && this.storage == storage
      ensures templates == Load(browser, storage)
      ensures Persisted()
    {
      this.browser := browser;
      this.storage := storage;
      this.templates := Load(browser, storage);
    }

    /** `getById`: the first template with that identifier, if any. */
    function GetById(id: string): (r: Option<WorkoutTemplate>)
      reads this
      ensures r.None? <==> forall i :: 0 <= i < |templates| ==> templates[i].id != id
      ensures r.Some? ==> r.value.id == id && r.value in templates
    {
      FindId(templates, TemplateId, id)
    }

    /** `add`: builds a template from the exercises, puts it in front and returns it. */
    method Add(name: string, exercises: seq<Exercise>, id: string, createdAt: string)
      returns (template: WorkoutTemplate)
      modifies this
      ensures template == WorkoutTemplate(id, name, ToTemplateExercises(exercises), createdAt)
      ensures templates == [template] + old(templates)
      ensures storage == Save(browser, templates, old(storage))
      ensures Persisted()
      ensures GetById(id) == Some(template)
    {
      template := WorkoutTemplate(id, name, ToTemplateExercises(exercises), createdAt);
      templates := [template] + templates;
      storage := Save(browser, templates, storage);
      FindIdPrepend(template, old(templates), TemplateId);
    }

    /** `delete`: drops every template with that identifier, keeping the others in order. */
    method Delete(id: string)
      modifies this
      ensures templates == RemoveId(old(templates), TemplateId, id)
      ensures storage == Save(browser, templates, old(storage))
      ensures Persisted()
      ensures GetById(id) == None
    {
      templates := RemoveId(templates, TemplateId, id);
      storage := Save(browser, templates, storage);
    }

    /** `import`: puts the template in front unchanged; no check for an existing identifier. */
    method Import(template: WorkoutTemplate)
      modifies this
      ensures templates == [template] + old(templates)
      ensures storage == Save(browser, templates, old(storage))
      ensures Persisted()
      ensures GetById(template.id) == Some(template)
    {
      templates := [template] + templates;
      storage := Save(browser, templates, storage);
      FindIdPrepend(template, old(templates), TemplateId);
    }
  }
}
