/** The property screen: three text fields (object, property name, property value) and get,
    set and list buttons running `btrfs property`; the output area shows the outcome. */
module Property {
  import opened PyText
  import opened Process

  const MissingInput := "Please provide the necessary input."

  /** The operation names the buttons send. */
  const Buttons: seq<string> := ["get", "set", "list"]

  /** The branch of `run_property_operation` that runs: get always, set only with a value left
      after stripping, list always. */
  predicate Runs(operation: string, valueText: string) {
    operation == "get" || (operation == "set" && Strip(valueText) != "") || operation == "list"
  }

  /** `run_property_operation`: the three fields are stripped, then the if/elif chain picks the
      argument vector; each field is one argument whatever it holds, and neither the object nor
      the name is checked for emptiness. */
  function PropertyPlan(operation: string, objectText: string, nameText: string, valueText: string): (p: Plan<seq<string>>)
    ensures p.Run? <==> Runs(operation, valueText)
    ensures p.Refuse? ==> p.message == MissingInput
    ensures p.Run? ==> |p.command| >= 5 && p.command[..5] == ["sudo", "btrfs", "property", operation, Strip(objectText)]
  {
    Chain(operation, Strip(objectText), Strip(nameText), Strip(valueText))
  }

  /** The if/elif chain on the stripped fields. */
  function Chain(operation: string, obj: string, name: string, value: string): (p: Plan<seq<string>>)
    ensures p.Run? <==> operation == "get" || (operation == "set" && value != "") || operation == "list"
    ensures p.Refuse? ==> p.message == MissingInput
    ensures p.Run? ==> |p.command| >= 5 && p.command[..5] == ["sudo", "btrfs", "property", operation, obj]
  {
    if operation == "get" then Run(["sudo", "btrfs", "property", "get", obj, name])
    else if operation == "set" && value != "" then Run(["sudo", "btrfs", "property", "set", obj, name, value])
    else if operation == "list" then Run(["sudo", "btrfs", "property", "list", obj])
    else Refuse(MissingInput)
  }

  /** The text the output area is left holding. */
  function PropertyOutput(operation: string, objectText: string, nameText: string, valueText: string,
                          exec: seq<string> -> Launch): (out: string)
    ensures !Runs(operation, valueText) ==> out == MissingInput
    ensures Runs(operation, valueText) ==> out == Outcome(exec(PropertyPlan(operation, objectText, nameText, valueText).command))
  {
    match PropertyPlan(operation, objectText, nameText, valueText)
    case Refuse(m) => m
    case Run(argv) => Outcome(exec(argv))
  }

  /** get passes the stripped object and name, even when the name is empty. */
  lemma GetArgv(objectText: string, nameText: string, valueText: string)
    ensures PropertyPlan("get", objectText, nameText, valueText)
         == Run(["sudo", "btrfs", "property", "get", Strip(objectText), Strip(nameText)])
  {
  }

  /** set runs exactly when the stripped value is non-empty, and passes object, name and value. */
  lemma SetArgv(objectText: string, nameText: string, valueText: string)
    ensures PropertyPlan("set", objectText, nameText, valueText).Run? <==> !AllSpace(valueText)
    ensures !AllSpace(valueText) ==>
      (PropertyPlan("set", objectText, nameText, valueText)
       == Run(["sudo", "btrfs", "property", "set", Strip(objectText), Strip(nameText), Strip(valueText)]))
  {
    assert "set" != "get";
    StripEmpty(valueText);
  }

  /** list passes only the object: the name and value fields make no difference. */
  lemma ListIgnoresNameAndValue(objectText: string, nameText: string, valueText: string, nameText': string, valueText': string)
    ensures PropertyPlan("list", objectText, nameText, valueText) == PropertyPlan("list", objectText, nameText', valueText')
    ensures PropertyPlan("list", objectText, nameText, valueText) == Run(["sudo", "btrfs", "property", "list", Strip(objectText)])
  {
    assert "list" != "get" && "list" != "set";
  }

  /** Surrounding whitespace in any field makes no difference. */
  lemma PlanSeesStrippedFields(operation: string, objectText: string, nameText: string, valueText: string)
    ensures PropertyPlan(operation, objectText, nameText, valueText)
         == PropertyPlan(operation, Strip(objectText), Strip(nameText), Strip(valueText))
  {
    StripIdempotent(objectText);
    StripIdempotent(nameText);
    StripIdempotent(valueText);
    assert PropertyPlan(operation, Strip(objectText), Strip(nameText), Strip(valueText))
        == Chain(operation, Strip(objectText), Strip(nameText), Strip(valueText));
  }

  /** A refused operation runs nothing: the output does not depend on what a run would do. */
  lemma RefusalRunsNothing(operation: string, objectText: string, nameText: string, valueText: string,
                           exec: seq<string> -> Launch, exec': seq<string> -> Launch)
    requires !Runs(operation, valueText)
    ensures PropertyOutput(operation, objectText, nameText, valueText, exec)
         == PropertyOutput(operation, objectText, nameText, valueText, exec')
  {
  }

  /** Every button sends a name the chain recognises; only set can be refused, and only for a
      blank value. */
  lemma ButtonsRefusedOnlyForBlankValue(i: int, valueText: string)
    requires 0 <= i < |Buttons|
    ensures !Runs(Buttons[i], valueText) <==> Buttons[i] == "set" && AllSpace(valueText)
  {
    StripEmpty(valueText);
    assert "set" != "get" && "set" != "list";
  }
}
