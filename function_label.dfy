/**
 * The tool-name-to-label codec of the maintenance evaluation. A known
 * tool name gets its class label; any other name gets the KeyError class
 * itself back as a value, so the lookup never raises.
 */
module FunctionLabel {

  const InsertPreference := "insert_preference"
  const PassPreference := "pass_preference"
  const UpdatePreference := "update_preference"
  const AppendPreference := "append_preference"

  /** What the lookup returns: a label, or the KeyError class object. */
  datatype LabelOrKeyError = Label(n: int) | KeyErrorClass

  predicate IsToolName(name: string) {
    name == InsertPreference || name == PassPreference || name == UpdatePreference || name == AppendPreference
  }

  function FunctionToLabel(name: string): (r: LabelOrKeyError)
    ensures r.Label? <==> IsToolName(name)
    ensures r.Label? ==> 0 <= r.n <= 3
  {
    if name == InsertPreference then Label(0)
    else if name == PassPreference then Label(1)
    else if name == UpdatePreference then Label(2)
    else if name == AppendPreference then Label(3)
    else KeyErrorClass
  }

  /** The label of each tool name, and the name each label stands for. */
  function LabelName(n: int): (name: string)
    requires 0 <= n <= 3
    ensures IsToolName(name)
  {
    if n == 0 then InsertPreference
    else if n == 1 then PassPreference
    else if n == 2 then UpdatePreference
    else AppendPreference
  }

  /** Every label is the label of exactly one tool name, and every name's label leads back to it. */
  lemma {:induction false} FunctionLabelRoundTrip(name: string, n: int)
    ensures IsToolName(name) ==> LabelName(FunctionToLabel(name).n) == name
    ensures 0 <= n <= 3 ==> FunctionToLabel(LabelName(n)) == Label(n)
  {
  }

  /** Two tool names share a label only if they are the same name. */
  lemma {:induction false} FunctionLabelInjective(a: string, b: string)
    requires IsToolName(a) && IsToolName(b)
    ensures FunctionToLabel(a) == FunctionToLabel(b) <==> a == b
  {
    FunctionLabelRoundTrip(a, 0);
    FunctionLabelRoundTrip(b, 0);
  }
}
