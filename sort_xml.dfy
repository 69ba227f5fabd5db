// The `build_sort_info` helper shared (as two identical copies) by
// PySingleInputOutputToolExample and PySortedInputToolExample: ElementTree
// serialises an element holding one child whose tag text is
// `Field field="X"` or `Field field="X" order="O"`, and the XML declaration
// ElementTree puts in front is stripped.
module SortXml {

  /**
   * The serialised child tag: `<Field field="X" />`, with ` order="O"` only
   * for a non-empty order. The whole `Field field="X" ...` text is the
   * subelement's tag, not its attributes, and ElementTree writes a tag as it
   * is, with no escaping, so the output is exactly this text.
   */
  function FieldTag(field: string, order: string): (r: string)
    ensures order == "" ==> r == "<Field field=\"" + field + "\" />"
    ensures order != "" ==> r == "<Field field=\"" + field + "\" order=\"" + order + "\" />"
  {
    "<Field field=\"" + field + "\"" + (if order != "" then " order=\"" + order + "\"" else "") + " />"
  }

  /** `<element>` wrapping the one child tag, without the XML declaration. */
  function SortElement(element: string, field: string, order: string): (r: string)
    ensures |r| >= 2 * |element| + 5
    ensures r[..|element| + 2] == "<" + element + ">"
    ensures r[|r| - |element| - 3..] == "</" + element + ">"
  {
    "<" + element + ">" + FieldTag(field, order) + "</" + element + ">"
  }
}
