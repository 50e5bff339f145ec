/** The preference choices offered by the page and the lookup that
    pre-selects the stored value among them (`get_option_index`). */
module Options {

  const DepthOptions: seq<string> := ["小学", "初中", "高中", "大学", "研究生"]
  const StyleOptions: seq<string> := ["教科书", "纪录片", "费曼式", "苏格拉底式", "讲故事"]
  const ToneOptions: seq<string> := ["鼓励性", "中立性", "信息性", "友好性", "幽默性"]
  const FrameworkOptions: seq<string> := ["演绎法", "归纳法", "类比法", "因果法"]

  /** The preferences a new session starts with. */
  const DefaultDepth: string := "初中"
  const DefaultStyle: string := "教科书"
  const DefaultTone: string := "友好性"
  const DefaultFramework: string := "演绎法"

  /** The position of the first occurrence of `value` (Python's `list.index`). */
  function FirstIndex<T(==)>(options: seq<T>, value: T): (k: nat)
    requires value in options
    ensures k < |options| && options[k] == value
    ensures forall j :: 0 <= j < k ==> options[j] != value
  {
    if options[0] == value then 0 else 1 + FirstIndex(options[1..], value)
  }

  /** The index to pre-select: where `value` first occurs, or 0 when it is not offered. */
  function GetOptionIndex<T(==)>(options: seq<T>, value: T): (k: nat)
    ensures value in options ==> k < |options| && options[k] == value
    ensures value in options ==> forall j :: 0 <= j < k ==> options[j] != value
    ensures value !in options ==> k == 0
    ensures options != [] ==> k < |options|
  {
    if value in options then FirstIndex(options, value) else 0
  }

  /** The session's default preferences are all on offer, so the page shows
      them selected rather than falling back to the first choice. */
  lemma DefaultsAreOffered()
    ensures GetOptionIndex(DepthOptions, DefaultDepth) == 1
    ensures GetOptionIndex(StyleOptions, DefaultStyle) == 0
    ensures GetOptionIndex(ToneOptions, DefaultTone) == 3
    ensures GetOptionIndex(FrameworkOptions, DefaultFramework) == 0
  {
    assert DepthOptions[1] == DefaultDepth;
    assert ToneOptions[3] == DefaultTone;
  }
}
