/** The skill-gap form: with both fields filled in, the skills and the target role
    go to `localStorage` and the user is sent on to the roadmap page; otherwise an
    alert is shown and nothing else happens. */
module Analyze {
  import opened Browser

  const FillInAlert := "Please fill in all fields"

  /** Both fields are non-empty strings; nothing is trimmed, so a field made of
      spaces counts as filled in. */
  predicate Filled(skills: string, role: string) {
    skills != "" && role != ""
  }

  /** `handleSubmit`: the effects of one form submission. */
  function HandleSubmit(skills: string, role: string): (effects: seq<Effect>)
    ensures !Filled(skills, role) ==> effects == [Alert(FillInAlert)]
    ensures Filled(skills, role) ==> Navigations(effects) == ["/roadmap"]
    ensures Filled(skills, role) ==> |effects| == 3 && effects[2] == Push("/roadmap")
  {
    if !Filled(skills, role) then [Alert(FillInAlert)]
    else
      var e := [SetItem("userSkills", skills), SetItem("targetRole", role), Push("/roadmap")];
      var pushOnly := [Push("/roadmap")];
      assert e[1..][1..] == pushOnly && pushOnly[1..] == [];
      assert Navigations(pushOnly) == ["/roadmap"];
      assert Navigations(e[1..]) == ["/roadmap"];
      e
  }

  /** What the submission leaves in `localStorage`: untouched without both fields,
      otherwise the two values verbatim, read back under their keys. */
  lemma SubmitStorage(store: map<string, string>, skills: string, role: string)
    ensures !Filled(skills, role) ==> ApplyStorage(store, HandleSubmit(skills, role)) == store
    ensures Filled(skills, role) ==>
      ApplyStorage(store, HandleSubmit(skills, role)) == store["userSkills" := skills]["targetRole" := role]
  {
    var e := HandleSubmit(skills, role);
    if Filled(skills, role) {
      var one, two := e[..1], e[..2];
      assert one[..0] == [] && two[..1] == one && e[..2] == two;
      assert ApplyStorage(store, one) == store["userSkills" := skills];
      assert ApplyStorage(store, two) == store["userSkills" := skills]["targetRole" := role];
    } else {
      assert e[..0] == [];
    }
  }

  /** No key other than the two is written or removed. */
  lemma OtherKeysUnchanged(store: map<string, string>, skills: string, role: string, k: string)
    requires k != "userSkills" && k != "targetRole"
    ensures (k in ApplyStorage(store, HandleSubmit(skills, role))) == (k in store)
    ensures k in store ==> ApplyStorage(store, HandleSubmit(skills, role))[k] == store[k]
  {
    UntouchedKeyUnchanged(store, HandleSubmit(skills, role), k);
  }

  /** The navigation comes only after both writes: every effect before the last is
      a storage write. */
  lemma NavigationAfterWrites(skills: string, role: string)
    requires Filled(skills, role)
    ensures var e := HandleSubmit(skills, role);
      forall i :: 0 <= i < |e| - 1 ==> e[i].SetItem? && !IsNavigation(e[i])
  {
  }
}
