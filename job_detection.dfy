/** The job posting checker: the classifier's answer becomes a labelled result, and
    the label chooses how the result is shown. The classifier service is an input:
    either it failed (the request threw, the status was not OK, or the body was not
    JSON) or it answered with a JSON body. */
module JobCheck {
  import opened Wrappers
  import opened Text
  import opened Json

  const FakeLabel := "\U{26A0}\U{FE0F} Fake Job Posting"
  const RealLabel := "\U{2705} Real Job Posting"
  const ErrorLabel := "\U{274C} Error checking the job posting"

  datatype ClassifierReply = Failed | Answer(data: Json)

  /** A result; a `confidence` the body lacks is `None` (`undefined`). */
  datatype Result = Result(labelText: string, confidence: Option<Json>)

  /** `data.prediction === 1`. */
  predicate PredictsFake(data: Json) {
    Member(data, "prediction") == Some(Number(1.0))
  }

  /** The result `handleSubmit` sets once the request settles. Reading a member of a
      `null` body throws, so it gives the error result too. */
  function ResultFor(reply: ClassifierReply): (r: Result)
    ensures r.labelText == ErrorLabel <==> reply.Failed? || reply.data.Null?
    ensures r.labelText == FakeLabel <==> reply.Answer? && !reply.data.Null? && PredictsFake(reply.data)
    ensures r.labelText == RealLabel <==> reply.Answer? && !reply.data.Null? && !PredictsFake(reply.data)
    ensures r.labelText == ErrorLabel ==> r.confidence == Some(Number(0.0))
    ensures r.labelText != ErrorLabel ==> r.confidence == Member(reply.data, "confidence")
  {
    LabelsDistinct();
    if reply.Failed? || reply.data.Null? then Result(ErrorLabel, Some(Number(0.0)))
    else Result(if PredictsFake(reply.data) then FakeLabel else RealLabel, Member(reply.data, "confidence"))
  }

  lemma LabelsDistinct()
    ensures FakeLabel != RealLabel && FakeLabel != ErrorLabel && RealLabel != ErrorLabel
  {
    assert FakeLabel[0] != RealLabel[0] && FakeLabel[0] != ErrorLabel[0] && RealLabel[0] != ErrorLabel[0];
  }

  /** How a result is shown: as a warning of fraud, as safe, or as a problem. */
  datatype Category = Danger | Safe | Warning

  /** `label.includes("Fake") ? … : label.includes("Real") ? … : …`. */
  function CategoryOf(text: string): Category {
    if Contains(text, "Fake") then Danger
    else if Contains(text, "Real") then Safe
    else Warning
  }

  /** A string none of whose characters starts `sub` does not contain it. */
  lemma {:induction false} NotContainsWithoutFirst(s: string, sub: string)
    requires sub != []
    requires sub[0] !in s
    ensures !Contains(s, sub)
  {
    if s != [] {
      NotContainsWithoutFirst(s[1..], sub);
    }
  }

  lemma FakeLabelCategory()
    ensures CategoryOf(FakeLabel) == Danger
  {
    assert OccursAt(FakeLabel, "Fake", 3);
    ContainsAt(FakeLabel, "Fake");
  }

  lemma RealLabelCategory()
    ensures CategoryOf(RealLabel) == Safe
  {
    assert OccursAt(RealLabel, "Real", 2);
    ContainsAt(RealLabel, "Real");
    NotContainsWithoutFirst(RealLabel, "Fake");
  }

  lemma ErrorLabelWords()
    ensures ErrorLabel == "\U{274C} " + "Error " + "checking " + "the " + "job " + "posting"
  {
  }

  lemma ErrorLabelCategory()
    ensures CategoryOf(ErrorLabel) == Warning
  {
    ErrorLabelWords();
    assert 'F' !in "\U{274C} " && 'F' !in "Error " && 'F' !in "checking ";
    assert 'F' !in "the " && 'F' !in "job " && 'F' !in "posting";
    assert 'R' !in "\U{274C} " && 'R' !in "Error " && 'R' !in "checking ";
    assert 'R' !in "the " && 'R' !in "job " && 'R' !in "posting";
    NotContainsWithoutFirst(ErrorLabel, "Fake");
    NotContainsWithoutFirst(ErrorLabel, "Real");
  }

  /** The category of every settled result: a fraud warning exactly for a prediction
      of 1, a problem exactly when the check failed. */
  lemma ResultCategory(reply: ClassifierReply)
    ensures CategoryOf(ResultFor(reply).labelText) == Danger <==> reply.Answer? && !reply.data.Null? && PredictsFake(reply.data)
    ensures CategoryOf(ResultFor(reply).labelText) == Warning <==> reply.Failed? || reply.data.Null?
  {
    FakeLabelCategory();
    RealLabelCategory();
    ErrorLabelCategory();
  }

  class JobChecker {
    var description: string
    var result: Option<Result>
    var loading: bool

    constructor ()
      ensures description == "" && result.None? && !loading
    {
      description := "";
      result := None;
      loading := false;
    }

    /** The button is disabled while a check runs or when the description is blank. */
    predicate SubmitDisabled(): (disabled: bool)
      reads this
      ensures disabled <==> loading || AllWhiteSpace(description)
    {
      BlankIffAllWhiteSpace(description);
      loading || IsBlank(description)
    }

    method SetDescription(text: string)
      modifies this
      ensures description == text && result == old(result) && loading == old(loading)
    {
      description := text;
    }

    /** `handleSubmit` up to the request: loading starts, the previous result is
        cleared, and the description is sent as it is. */
    method Begin() returns (sent: string)
      modifies this
      ensures sent == description && description == old(description)
      ensures loading && result.None?
    {
      loading := true;
      result := None;
      sent := description;
    }

    /** The request settles, on every path: the result is set and loading ends. */
    method Complete(reply: ClassifierReply)
      modifies this
      ensures result == Some(ResultFor(reply)) && !loading && description == old(description)
    {
      result := Some(ResultFor(reply));
      loading := false;
    }

    /** `handleSubmit` from start to finish. */
    method HandleSubmit(reply: ClassifierReply) returns (sent: string)
      modifies this
      ensures sent == old(description) && description == old(description)
      ensures result == Some(ResultFor(reply)) && !loading
    {
      sent := Begin();
      Complete(reply);
    }
  }
}
