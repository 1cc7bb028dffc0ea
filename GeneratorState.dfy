/** The state of the PRD generator screen in
    frontend/src/components/PRDGenerator.tsx: the form data (a dictionary of
    thirteen text fields), the generated record, and the "generating" flag. */
module GeneratorState {
  import opened PrdTypes
  import opened Assembler

  /** The five keys `generatePRD` reads. */
  const AssembledKeys: set<string> :=
    {"problemStatement", "targetAudience", "goals", "features", "constraints"}

  /** The eight further keys the form holds but the assembler never reads. */
  const UnassembledKeys: set<string> :=
    {"userPersonas", "painPoints", "overview", "userFlow", "solution",
     "technicalFeasibility", "keyMetrics", "futureScope"}

  /** The thirteen keys of the initial form state. */
  const FormKeys: set<string> := AssembledKeys + UnassembledKeys

  /** The field of `fields` that the assembler reads from form key `key`. */
  function FieldValue(fields: Fields, key: string): string
    requires key in AssembledKeys
  {
    match key
    case "problemStatement" => fields.problemStatement
    case "targetAudience" => fields.targetAudience
    case "goals" => fields.goals
    case "features" => fields.features
    case _ => fields.constraints
  }

  /** The fields the assembler reads from a form state: each of the five is
      the form's value under the key of the same name. */
  function FieldsFromForm(form: map<string, string>): (fields: Fields)
    requires AssembledKeys <= form.Keys
    ensures forall key :: key in AssembledKeys ==> FieldValue(fields, key) == form[key]
  {
    Fields(form["problemStatement"], form["targetAudience"], form["goals"], form["features"], form["constraints"])
  }

  /** The five keys name the five fields: fields that agree on every key
      are equal. */
  lemma FieldValueExtensional(f1: Fields, f2: Fields)
    requires forall key :: key in AssembledKeys ==> FieldValue(f1, key) == FieldValue(f2, key)
    ensures f1 == f2
  {
    assert FieldValue(f1, "problemStatement") == FieldValue(f2, "problemStatement");
    assert FieldValue(f1, "targetAudience") == FieldValue(f2, "targetAudience");
    assert FieldValue(f1, "goals") == FieldValue(f2, "goals");
    assert FieldValue(f1, "features") == FieldValue(f2, "features");
    assert FieldValue(f1, "constraints") == FieldValue(f2, "constraints");
  }

  /** Editing a key the assembler does not read leaves the assembled record
      unchanged; editing one it reads changes exactly that field of it. */
  lemma EditAndAssemble(form: map<string, string>, field: string, value: string, now: Time)
    requires AssembledKeys <= form.Keys
    ensures field !in AssembledKeys ==> Assemble(FieldsFromForm(form[field := value]), now) == Assemble(FieldsFromForm(form), now)
    ensures forall key :: key in AssembledKeys ==>
              FieldValue(FieldsFromForm(form[field := value]), key)
              == if key == field then value else FieldValue(FieldsFromForm(form), key)
  {
    if field !in AssembledKeys {
      FieldValueExtensional(FieldsFromForm(form[field := value]), FieldsFromForm(form));
    }
  }

  class PrdGenerator {
    var formData: map<string, string>
    var generatedPrd: Option<Prd>
    var isGenerating: bool

    /** Every form key of the initial state stays present. */
    ghost predicate Valid()
      reads this
    {
      FormKeys <= formData.Keys
    }

    /** The initial state: all thirteen fields empty, nothing generated. */
    constructor ()
      ensures Valid()
      ensures formData.Keys == FormKeys && forall k :: k in formData ==> formData[k] == ""
      ensures generatedPrd == None && !isGenerating
    {
      formData := map k | k in FormKeys :: "";
      generatedPrd := None;
      isGenerating := false;
    }

    /** `handleInputChange`: sets `field` to `value` and leaves every other
        key as it was. A key outside the form is added, as the object spread
        of the source does. */
    method HandleInputChange(field: string, value: string)
      requires Valid()
      modifies this`formData
      ensures Valid()
      ensures formData == old(formData)[field := value]
      ensures formData.Keys == old(formData).Keys + {field}
      ensures forall k :: k in formData && k != field ==> formData[k] == old(formData)[k]
    {
      formData := formData[field := value];
    }

    /** `generatePRD`: raises the flag, assembles the record from the current
        form fields at time `now`, stores it and lowers the flag. */
    method GeneratePrd(now: Time)
      requires Valid()
      modifies this`generatedPrd, this`isGenerating
      ensures Valid()
      ensures generatedPrd == Some(Assemble(FieldsFromForm(formData), now))
      ensures !isGenerating
    {
      isGenerating := true;
      var prd := Assemble(FieldsFromForm(formData), now);
      generatedPrd := Some(prd);
      isGenerating := false;
    }
  }
}
