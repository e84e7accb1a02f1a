/** The course request form of components/GeneratorForm.tsx: nine text
    fields, three of them required before the form can be submitted. */
module GeneratorForm {
  import opened Base

  /** The names of `CourseGenerationParams` (App.tsx:14-24). */
  datatype FieldName = Topic | Difficulty | Summary | Country | City | Duration | Skills | Experience | Style

  /** `formData` */
  datatype FormData = FormData(
    topic: string,
    difficulty: string,
    summary: string,
    country: string,
    city: string,
    duration: string,
    skills: string,
    experience: string,
    style: string)
  {
    /** `formData[name]` */
    function Get(name: FieldName): string {
      match name
      case Topic => topic
      case Difficulty => difficulty
      case Summary => summary
      case Country => country
      case City => city
      case Duration => duration
      case Skills => skills
      case Experience => experience
      case Style => style
    }

    /** `{ ...formData, [name]: value }` */
    function With(name: FieldName, value: string): (r: FormData)
      ensures r.Get(name) == value
      ensures forall other :: other != name ==> r.Get(other) == Get(other)
    {
      match name
      case Topic => this.(topic := value)
      case Difficulty => this.(difficulty := value)
      case Summary => this.(summary := value)
      case Country => this.(country := value)
      case City => this.(city := value)
      case Duration => this.(duration := value)
      case Skills => this.(skills := value)
      case Experience => this.(experience := value)
      case Style => this.(style := value)
    }
  }

  /** The initial form (GeneratorForm.tsx:57-67). */
  const Default: FormData :=
    FormData("", "Beginner", "", "", "", "1 Day", "", "Any", "Any")

  /** `isFormValid` (GeneratorForm.tsx:85): topic, country and city are all
      non-empty. */
  predicate IsValid(d: FormData) {
    d.topic != "" && d.country != "" && d.city != ""
  }

  /** The submit button's `disabled` (GeneratorForm.tsx:156). */
  predicate SubmitDisabled(d: FormData, isLoading: bool) {
    !IsValid(d) || isLoading
  }

  /** The initial form is not submittable, and its preset fields are the
      stated defaults while every other field is empty. */
  lemma DefaultFacts()
    ensures !IsValid(Default)
    ensures Default.Get(Difficulty) == "Beginner" && Default.Get(Duration) == "1 Day"
    ensures Default.Get(Experience) == "Any" && Default.Get(Style) == "Any"
    ensures forall f :: f !in {Difficulty, Duration, Experience, Style} ==> Default.Get(f) == ""
  {
  }

  /** Only the three required fields decide validity: changing any other
      field never makes the form valid or invalid, and a form whose required
      fields are all filled in is valid whatever the rest holds. */
  lemma ValidityDependsOnRequiredOnly(d: FormData, name: FieldName, value: string)
    ensures name !in {Topic, Country, City} ==> (IsValid(d.With(name, value)) <==> IsValid(d))
    ensures IsValid(d) <==> forall f :: f in {Topic, Country, City} ==> d.Get(f) != ""
  {
    if IsValid(d) {
      assert forall f :: f in {Topic, Country, City} ==> d.Get(f) != "";
    } else {
      assert d.Get(Topic) == "" || d.Get(Country) == "" || d.Get(City) == "";
    }
  }

  class Form {
    var data: FormData

    constructor ()
      ensures data == Default
    {
      data := Default;
    }

    /** handleChange (GeneratorForm.tsx:69-72) */
    method HandleChange(name: FieldName, value: string)
      modifies this
      ensures data == old(data).With(name, value)
    {
      data := data.With(name, value);
    }

    /** handleDurationChange (GeneratorForm.tsx:74-76) */
    method HandleDurationChange(duration: string)
      modifies this
      ensures data == old(data).(duration := duration)
      ensures data == old(data).With(Duration, duration)
    {
      data := data.(duration := duration);
    }

    /** handleSubmit (GeneratorForm.tsx:78-83): the parameters handed to
        `onGenerate`, if it is called. A submission happens exactly when the
        button is enabled and nothing is loading. */
    method HandleSubmit() returns (submitted: Option<FormData>)
      ensures submitted.Some? <==> !SubmitDisabled(data, false)
      ensures submitted.Some? ==> submitted.value == data && IsValid(data)
    {
      submitted := None;
      if data.topic != "" && data.country != "" && data.city != "" {
        submitted := Some(data);
      }
    }
  }
}
