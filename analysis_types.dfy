/** The analysis types offered when filtering load cases, and the numeric code
    of each that the analysis model's load-case query expects. */
module AnalysisTypes {

  /** The type names, in the order the analysis-type selector lists them. */
  const TypeNames: seq<string> := [
    "Linear Static", "Nonlinear Static", "Modal", "Response Spectrum",
    "Linear History", "Nonlinear History", "Linear Dynamic", "Nonlinear Dynamic",
    "Moving Load", "Buckling", "Steady State", "Power Spectral Density",
    "Linear Static Multi Step", "Hyper Static"]

  /** The lookup table from type name to code. */
  const TypeCodes: map<string, int> := map[
    "Linear Static" := 1, "Nonlinear Static" := 2, "Modal" := 3, "Response Spectrum" := 4,
    "Linear History" := 5, "Nonlinear History" := 6, "Linear Dynamic" := 7, "Nonlinear Dynamic" := 8,
    "Moving Load" := 9, "Buckling" := 10, "Steady State" := 11, "Power Spectral Density" := 12,
    "Linear Static Multi Step" := 13, "Hyper Static" := 14]

  datatype Lookup = Code(code: int) | UnknownType

  /** The code for a selected type name; a name outside the table is a lookup failure. */
  function CodeOf(name: string): (r: Lookup)
    ensures r.Code? <==> name in TypeNames
    ensures r.Code? ==> 1 <= r.code <= 14
    ensures forall i :: 0 <= i < |TypeNames| && TypeNames[i] == name ==> r == Code(i + 1)
  {
    NamesAreKeys();
    if name in TypeCodes then Code(TypeCodes[name]) else UnknownType
  }

  /** The selector's default, its first entry. */
  function DefaultType(): (name: string)
    ensures CodeOf(name) == Code(1)
  {
    TypeNames[0]
  }

  /** The selector lists exactly the table's names, in the table's order, so
      the i-th name listed has code i + 1. */
  lemma NamesAreKeys()
    ensures |TypeNames| == 14
    ensures forall name :: name in TypeNames <==> name in TypeCodes
    ensures forall i :: 0 <= i < |TypeNames| ==>
      TypeNames[i] in TypeCodes && TypeCodes[TypeNames[i]] == i + 1
  {
  }

  /** Different names have different codes. */
  lemma CodesDistinct(a: string, b: string)
    requires a in TypeCodes && b in TypeCodes && a != b
    ensures TypeCodes[a] != TypeCodes[b]
  {
    NamesAreKeys();
    var i :| 0 <= i < |TypeNames| && TypeNames[i] == a;
    var j :| 0 <= j < |TypeNames| && TypeNames[j] == b;
  }
}
